/** Generate: validation, the two templates, and what the machine that boots makes of the result. */
module Userdata {
  import opened Prelude
  import opened GoStrings
  import opened Lines
  import opened Utf8
  import opened ShellQuoting
  import opened NodeLabels
  import opened Layout
  import Templates

  datatype Options = Options(
    endpoint: string, caCert: string, clientCert: string, clientKey: string,
    labels: map<string, string>, taints: seq<Taint>)

  /** The literal parts of the cloud-init template, each a list of lines. */
  datatype Template = Template(
    caCert: seq<string>, clientCert: seq<string>, clientKey: seq<string>, endpoint: seq<string>,
    users: seq<string>, runcmd: seq<string>,
    scriptStart: seq<string>, scriptMiddle: seq<string>, kubelet: seq<string>, scriptEnd: seq<string>)

  /** What goes into the slots. */
  datatype Slots = Slots(caCert: string, clientCert: string, clientKey: string, endpoint: string, config: string,
                         labels: string)

  function Text(lines: seq<string>): string {
    Join(lines, '\n')
  }

  /** The command that hands the labels to the boot script. */
  function LabelsCommand(quoted: string): string {
    Written(Assign(BOOT.labelsVar, quoted))[0]
  }

  /** The parts of the boot script, without its indentation. */
  function ScriptParts(t: Template, quoted: string): seq<string> {
    [Text(t.scriptStart), LabelsCommand(quoted), Text(t.scriptMiddle), Text(t.kubelet), Text(t.scriptEnd)]
  }

  function BootScript(t: Template, quoted: string): string {
    Join(ScriptParts(t, quoted), '\n')
  }

  const MARGIN := 4

  function LabelsLine(quoted: string): string {
    SpacesOf(MARGIN) + LabelsCommand(quoted)
  }

  function Front(t: Template, s: Slots): seq<string> {
    [Text(t.caCert) + s.caCert, Text(t.clientCert) + s.clientCert, Text(t.clientKey) + s.clientKey,
     Text(t.endpoint) + s.endpoint] + [Text(t.users)]
  }

  /** The boot script's lines in the document; the labels are put in as they are. */
  function Indented(t: Template, quoted: string): seq<string> {
    [Indent(Text(t.scriptStart), MARGIN), LabelsLine(quoted), Indent(Text(t.scriptMiddle), MARGIN),
     Indent(Text(t.kubelet), MARGIN), Indent(Text(t.scriptEnd), MARGIN)]
  }

  /** Executing the template: its parts with the slots filled in. */
  function Sections(t: Template, s: Slots): seq<string> {
    Front(t, s) + ([s.config] + ([Text(t.runcmd)] + Indented(t, s.labels)))
  }

  function Document(t: Template, s: Slots): string {
    Join(Sections(t, s), '\n')
  }

  const CLOUD_INIT := Template(
    Templates.CA_CERT, Templates.KUBELET_CERT, Templates.KUBELET_KEY, Templates.ENDPOINT,
    Templates.USERS, Templates.RUNCMD,
    Templates.SCRIPT_START, Templates.SCRIPT_MIDDLE, Templates.KUBELET, Templates.SCRIPT_END)

  /** The kubelet configuration template, executed. */
  function KubeletConfig(head: seq<string>, taintsYaml: string): string {
    Text(head) + ("\n" + (taintsYaml + "\n"))
  }

  /* --------------------------------------------------------------------- the code */

  ghost predicate CleanTaint(t: Taint) {
    SingleLine(t.key) && SingleLine(t.value) && SingleLine(t.effect)
  }

  /** What Generate accepts; `labels` is the serialized label list. */
  ghost predicate Accepted(opts: Options, labels: string) {
    && SingleLine(opts.endpoint)
    && SingleLine(labels) && ShellSafe(labels)
    && forall t :: t in opts.taints ==> CleanTaint(t)
  }

  method ValidateTaints(taints: seq<Taint>) returns (ok: bool)
    ensures ok <==> forall t :: t in taints ==> CleanTaint(t)
  {
    var i := 0;
    while i < |taints|
      invariant 0 <= i <= |taints|
      invariant forall j :: 0 <= j < i ==> CleanTaint(taints[j])
    {
      var fields := [taints[i].key, taints[i].value, taints[i].effect];
      var k := 0;
      while k < |fields|
        invariant 0 <= k <= |fields|
        invariant forall j :: 0 <= j < k ==> SingleLine(fields[j])
      {
        var clean := ValidateSingleLine(fields[k]);
        if !clean {
          assert taints[i] in taints;
          return false;
        }
        k := k + 1;
      }
      assert SingleLine(fields[0]) && SingleLine(fields[1]) && SingleLine(fields[2]);
      i := i + 1;
    }
    ok := true;
  }

  function TaintsYaml(yaml: seq<Taint> -> Result<string>, taints: seq<Taint>): Result<string> {
    if |taints| == 0 then Ok("") else yaml(taints)
  }

  function SlotsFor(opts: Options, labels: string, b64: string -> string, config: string): Slots {
    Slots(b64(opts.caCert), b64(opts.clientCert), b64(opts.clientKey), opts.endpoint, Indent(config, 6), Quote(labels))
  }

  /**
   * The result for options whose labels serialise to `labels`: a document exactly for accepted
   * options whose taints can be rendered, and then the template filled with these values.
   */
  ghost predicate Generated(doc: Result<string>, opts: Options, labels: string, b64: string -> string,
                            yaml: seq<Taint> -> Result<string>, head: seq<string>, t: Template) {
    && (doc.Ok? <==> Accepted(opts, labels) && TaintsYaml(yaml, opts.taints).Ok?)
    && (doc.Ok? ==>
          doc.value == Document(t, SlotsFor(opts, labels, b64,
                                            KubeletConfig(head, TaintsYaml(yaml, opts.taints).value))))
  }

  /**
   * What is refused: an endpoint, a label list or a taint field that is not a single line, labels with
   * a character that the shell reads again inside double quotes, and taints that cannot be rendered.
   */
  lemma AcceptedExactly(doc: Result<string>, opts: Options, labels: string, b64: string -> string,
                        yaml: seq<Taint> -> Result<string>, head: seq<string>, t: Template)
    requires Generated(doc, opts, labels, b64, yaml, head, t)
    ensures doc.Ok? <==> && SingleLine(opts.endpoint) && SingleLine(labels)
                         && (forall i :: 0 <= i < |labels| ==> labels[i] !in {'\"', '$', '`', '\\'})
                         && (forall i :: 0 <= i < |opts.taints| ==>
                               && SingleLine(opts.taints[i].key) && SingleLine(opts.taints[i].value)
                               && SingleLine(opts.taints[i].effect))
                         && (opts.taints != [] ==> yaml(opts.taints).Ok?)
  {
    assert ShellSafe(labels) <==> forall i :: 0 <= i < |labels| ==> labels[i] !in {'\"', '$', '`', '\\'};
    assert (forall t :: t in opts.taints ==> CleanTaint(t))
      <==> forall i :: 0 <= i < |opts.taints| ==> CleanTaint(opts.taints[i]);
  }

  /** Generate with the given template texts. */
  method Fill(opts: Options, b64: string -> string, yaml: seq<Taint> -> Result<string>, head: seq<string>, t: Template)
    returns (doc: Result<string>)
    ensures exists labels :: Serialized(opts.labels, labels) && Generated(doc, opts, labels, b64, yaml, head, t)
  {
    var ok := ValidateSingleLine(opts.endpoint);
    var nodeLabels := SerializeLabels(opts.labels);
    if !ok {
      doc := Err("cluster endpoint");
      assert Generated(doc, opts, nodeLabels, b64, yaml, head, t);
      return;
    }
    ok := ValidateSingleLine(nodeLabels);
    if !ok || !ShellSafe(nodeLabels) {
      doc := Err("node labels");
      assert Generated(doc, opts, nodeLabels, b64, yaml, head, t);
      return;
    }
    ok := ValidateTaints(opts.taints);
    if !ok {
      doc := Err("taint");
      assert Generated(doc, opts, nodeLabels, b64, yaml, head, t);
      return;
    }
    var taintsYaml := TaintsYaml(yaml, opts.taints);
    if taintsYaml.Err? {
      doc := Err("serializing taints");
      assert Generated(doc, opts, nodeLabels, b64, yaml, head, t);
      return;
    }
    var config := IndentLines(KubeletConfig(head, taintsYaml.value), 6);
    var slots := Slots(b64(opts.caCert), b64(opts.clientCert), b64(opts.clientKey), opts.endpoint, config,
                       Quote(nodeLabels));
    doc := Ok(Document(t, slots));
    assert Generated(doc, opts, nodeLabels, b64, yaml, head, t);
  }

  /** Generate, with the repository's own templates. */
  method Generate(opts: Options, b64: string -> string, yaml: seq<Taint> -> Result<string>)
    returns (doc: Result<string>)
    ensures exists labels :: Serialized(opts.labels, labels)
              && Generated(doc, opts, labels, b64, yaml, Templates.KUBELET_CONFIG, CLOUD_INIT)
  {
    doc := Fill(opts, b64, yaml, Templates.KUBELET_CONFIG, CLOUD_INIT);
  }

  /* ------------------------------------------------------------------ the document's lines */

  ghost function AllLines(sections: seq<string>): seq<string> {
    if sections == [] then [] else LinesOf(sections[0]) + AllLines(sections[1..])
  }

  lemma {:induction false} LinesOfJoin(sections: seq<string>)
    requires sections != []
    ensures LinesOf(Join(sections, '\n')) == AllLines(sections)
    decreases |sections|
  {
    if |sections| == 1 {
      assert AllLines(sections[1..]) == [];
    } else {
      LinesOfJoin(sections[1..]);
      SplitAtSep(sections[0], Join(sections[1..], '\n'), '\n');
    }
  }

  lemma {:induction false} AllLinesAppend(a: seq<string>, b: seq<string>)
    ensures AllLines(a + b) == AllLines(a) + AllLines(b)
  {
    if a == [] {
      assert [] + b == b;
    } else {
      AllLinesAppend(a[1..], b);
      assert (a + b)[1..] == a[1..] + b && (a + b)[0] == a[0];
      assert AllLines(a + b) == LinesOf(a[0]) + (AllLines(a[1..]) + AllLines(b));
    }
  }

  lemma {:induction false} SameCounts(a: seq<string>, b: seq<string>)
    requires |a| == |b| && forall i :: 0 <= i < |a| ==> |LinesOf(a[i])| == |LinesOf(b[i])|
    ensures |AllLines(a)| == |AllLines(b)|
  {
    if a != [] {
      SameCounts(a[1..], b[1..]);
    }
  }

  /** A newline-free value at the end of a text adds no line. */
  lemma AppendedValue(text: string, value: string)
    requires '\n' !in value
    ensures |LinesOf(text + value)| == |LinesOf(text)|
  {
    SplitNoSep(value, '\n');
    SplitAppend(text, value, '\n');
  }

  /** Slot values that stay on one line. */
  ghost predicate OneLine(s: Slots) {
    '\n' !in s.caCert && '\n' !in s.clientCert && '\n' !in s.clientKey && '\n' !in s.endpoint && '\n' !in s.labels
  }

  /** The number of lines depends on the kubelet configuration alone. */
  lemma LineCountFixed(t: Template, a: Slots, b: Slots)
    requires OneLine(a) && OneLine(b) && a.config == b.config
    ensures |LinesOf(Document(t, a))| == |LinesOf(Document(t, b))|
  {
    DocumentLines(t, a);
    DocumentLines(t, b);
    FrontCount(t, a);
    FrontCount(t, b);
    ScriptCount(t, a.labels, b.labels);
  }

  lemma ScriptCount(t: Template, a: string, b: string)
    requires '\n' !in a && '\n' !in b
    ensures |LinesOf(BootScript(t, a))| == |LinesOf(BootScript(t, b))|
  {
    LinesOfJoin(ScriptParts(t, a));
    LinesOfJoin(ScriptParts(t, b));
    LabelsCommandIsALine(a);
    LabelsCommandIsALine(b);
    SameCounts(ScriptParts(t, a), ScriptParts(t, b));
  }

  lemma LabelsCommandIsALine(quoted: string)
    requires '\n' !in quoted
    ensures LinesOf(LabelsCommand(quoted)) == [LabelsCommand(quoted)]
  {
    BootNamesSound();
    SplitNoSep(LabelsCommand(quoted), '\n');
  }

  /** The part before the configuration has as many lines as its literal text. */
  lemma FrontCount(t: Template, s: Slots)
    requires OneLine(s)
    ensures |AllLines(Front(t, s))|
         == |AllLines([Text(t.caCert), Text(t.clientCert), Text(t.clientKey), Text(t.endpoint), Text(t.users)])|
  {
    AppendedValue(Text(t.caCert), s.caCert);
    AppendedValue(Text(t.clientCert), s.clientCert);
    AppendedValue(Text(t.clientKey), s.clientKey);
    AppendedValue(Text(t.endpoint), s.endpoint);
    SameCounts(Front(t, s), [Text(t.caCert), Text(t.clientCert), Text(t.clientKey), Text(t.endpoint), Text(t.users)]);
  }

  lemma AcceptedIsOneLine(opts: Options, labels: string, b64: string -> string, config: string)
    requires Accepted(opts, labels) && forall s :: '\n' !in b64(s)
    ensures OneLine(SlotsFor(opts, labels, b64, config))
  {
    SingleLineHasNoLineBreak(opts.endpoint);
    SingleLineHasNoLineBreak(labels);
    QuoteAddsNoNewline(labels);
  }

  /** Endpoint, certificates and labels can never change the number of lines; only the taints can. */
  lemma OnlyTaintsChangeTheLineCount(t: Template, b64: string -> string, config: string,
                                     a: Options, labelsA: string, b: Options, labelsB: string)
    requires forall s :: '\n' !in b64(s)
    requires Accepted(a, labelsA) && Accepted(b, labelsB)
    ensures |LinesOf(Document(t, SlotsFor(a, labelsA, b64, config)))|
         == |LinesOf(Document(t, SlotsFor(b, labelsB, b64, config)))|
  {
    AcceptedIsOneLine(a, labelsA, b64, config);
    AcceptedIsOneLine(b, labelsB, b64, config);
    LineCountFixed(t, SlotsFor(a, labelsA, b64, config), SlotsFor(b, labelsB, b64, config));
  }

  lemma AllLinesOne(section: string)
    ensures AllLines([section]) == LinesOf(section)
  {
    assert AllLines([section][1..]) == [];
  }

  /** A one-line command is indented like any other text. */
  lemma LabelsLineIndented(quoted: string)
    requires '\n' !in quoted
    ensures LabelsLine(quoted) == Indent(LabelsCommand(quoted), MARGIN)
  {
    LabelsCommandIsALine(quoted);
    assert IndentAll([LabelsCommand(quoted)], MARGIN) == [LabelsLine(quoted)];
  }

  function IndentEach(sections: seq<string>, n: nat): seq<string> {
    seq(|sections|, i requires 0 <= i < |sections| => Indent(sections[i], n))
  }

  lemma {:induction false} AllLinesIndented(sections: seq<string>, n: nat)
    ensures AllLines(IndentEach(sections, n)) == IndentAll(AllLines(sections), n)
    decreases |sections|
  {
    if sections != [] {
      AllLinesIndented(sections[1..], n);
      IndentedLines(sections[0], n);
      assert IndentEach(sections, n)[1..] == IndentEach(sections[1..], n);
      IndentAllAppend(LinesOf(sections[0]), AllLines(sections[1..]), n);
    }
  }

  lemma IndentAllAppend(a: seq<string>, b: seq<string>, n: nat)
    ensures IndentAll(a + b, n) == IndentAll(a, n) + IndentAll(b, n)
  {
  }

  /** The lines of the boot script, and of its indented form. */
  lemma ScriptLines(t: Template, quoted: string)
    requires '\n' !in quoted
    ensures AllLines(Indented(t, quoted)) == IndentAll(LinesOf(BootScript(t, quoted)), MARGIN)
  {
    LabelsLineIndented(quoted);
    assert Indented(t, quoted) == IndentEach(ScriptParts(t, quoted), MARGIN);
    AllLinesIndented(ScriptParts(t, quoted), MARGIN);
    LinesOfJoin(ScriptParts(t, quoted));
  }

  /** The document's lines: the front, the kubelet configuration, a header, and the indented script. */
  lemma DocumentLines(t: Template, s: Slots)
    requires OneLine(s)
    ensures LinesOf(Document(t, s))
         == AllLines(Front(t, s))
            + (LinesOf(s.config) + (LinesOf(Text(t.runcmd)) + IndentAll(LinesOf(BootScript(t, s.labels)), MARGIN)))
  {
    var script := Indented(t, s.labels);
    LinesOfJoin(Sections(t, s));
    AllLinesThenTwo(Front(t, s), s.config, Text(t.runcmd), script);
    ScriptLines(t, s.labels);
  }

  lemma AllLinesThenTwo(front: seq<string>, a: string, b: string, rest: seq<string>)
    ensures AllLines(front + ([a] + ([b] + rest))) == AllLines(front) + (LinesOf(a) + (LinesOf(b) + AllLines(rest)))
  {
    AllLinesAppend(front, [a] + ([b] + rest));
    AllLinesCons(a, [b] + rest);
    AllLinesCons(b, rest);
  }

  lemma AllLinesCons(section: string, rest: seq<string>)
    ensures AllLines([section] + rest) == LinesOf(section) + AllLines(rest)
  {
    assert ([section] + rest)[1..] == rest;
  }

  /* --------------------------------------------------------------- what is read from it */

  /** The template parts begin at the left margin where YAML needs them to. */
  predicate Flush(lines: seq<string>) {
    lines != [] && lines[0] != "" && lines[0][0] != ' ' && lines[0][0] != '\n'
  }

  lemma FlushText(lines: seq<string>, more: string)
    requires Flush(lines)
    ensures var first := LinesOf(Text(lines) + more)[0]; first != "" && first[0] == lines[0][0]
  {
    var s := Text(lines) + more;
    assert s != "" && s[0] == lines[0][0];
  }

  /** The last lines end a text: both without a line break in them. */
  predicate EndsWith(lines: seq<string>, header: string, last: string) {
    |lines| >= 2 && lines[|lines| - 2] == header && lines[|lines| - 1] == last && '\n' !in header && '\n' !in last
  }

  lemma TextEnds(lines: seq<string>, header: string, last: string)
    requires EndsWith(lines, header, last)
    ensures EndsWith(LinesOf(Text(lines)), header, last)
  {
    var earlier := lines[..|lines| - 2];
    LinesOfJoin(lines);
    assert lines == earlier + ([header] + [last]);
    AllLinesAppend(earlier, [header] + [last]);
    AllLinesAppend([header], [last]);
    AllLinesOne(header);
    AllLinesOne(last);
    SplitNoSep(header, '\n');
    SplitNoSep(last, '\n');
  }

  const CONFIG_PATH := "  - path: /var/lib/kubelet/config.yaml"
  const CONFIG_HEADER := "    content: |"
  const SCRIPT_KEY := "runcmd:"
  const SCRIPT_HEADER := "  - |"

  /** What the readers rely on in a template. */
  ghost predicate WellFormed(t: Template) {
    && EndsWith(t.users, CONFIG_PATH, CONFIG_HEADER)
    && Flush(t.runcmd) && EndsWith(t.runcmd, SCRIPT_KEY, SCRIPT_HEADER)
    && Flush(t.scriptStart)
    && (exists last :: last != "" && EndsWith(t.scriptEnd, last, ""))
    && Passive(t.scriptMiddle)
    && Slot(t.caCert, CA_PATH, 2, CONTENT) && Slot(t.clientCert, CERT_PATH, 2, CONTENT)
    && Slot(t.clientKey, KEY_PATH, 2, CONTENT) && Slot(t.endpoint, KUBECONFIG_PATH, 7, SERVER)
  }

  const CA_PATH := "  - path: /etc/kubernetes/pki/ca.crt"
  const CERT_PATH := "  - path: " + "/var/lib/kubelet/pki/kubelet-client.crt"
  const KEY_PATH := "  - path: " + "/var/lib/kubelet/pki/kubelet-client.key"
  const CONTENT := "    content: "
  const KUBECONFIG_PATH := "  - path: /etc/kubernetes/kubelet.conf"
  const SERVER := "          server: "

  predicate NewlineFree(lines: seq<string>) {
    forall i :: 0 <= i < |lines| ==> '\n' !in lines[i]
  }

  /** The lines end in one that opens a slot, `below` lines below that with the path; none has a break. */
  predicate Slot(lines: seq<string>, path: string, below: nat, open_: string) {
    && below < |lines| && lines[|lines| - 1 - below] == path && lines[|lines| - 1] == open_
    && NewlineFree(lines[|lines| - 1 - below..])
  }

  /** Somewhere there is the path, and `below` lines below it the given line. */
  ghost predicate Holds(lines: seq<string>, path: string, below: nat, line: string) {
    exists i :: 0 <= i && i + below < |lines| && lines[i] == path && lines[i + below] == line
  }

  lemma HoldsAppend(a: seq<string>, b: seq<string>, path: string, below: nat, line: string)
    requires Holds(a, path, below, line) || Holds(b, path, below, line)
    ensures Holds(a + b, path, below, line)
  {
    var all := a + b;
    if Holds(a, path, below, line) {
      var i :| 0 <= i && i + below < |a| && a[i] == path && a[i + below] == line;
      assert all[i] == path && all[i + below] == line;
    } else {
      var i :| 0 <= i && i + below < |b| && b[i] == path && b[i + below] == line;
      assert all[|a| + i] == path && all[|a| + i + below] == line;
    }
  }

  /** The lines of a text whose last lines have no break in them. */
  lemma TextTail(lines: seq<string>, k: nat)
    requires k < |lines| && NewlineFree(lines[k..])
    ensures LinesOf(Text(lines)) == AllLines(lines[..k]) + lines[k..]
  {
    LinesOfJoin(lines);
    assert lines == lines[..k] + lines[k..];
    AllLinesAppend(lines[..k], lines[k..]);
    LinesOfJoin(lines[k..]);
    SplitJoin(lines[k..], '\n');
  }

  /** A value without a break, put into the slot, ends up on the slot's line, below the path. */
  lemma SlotHolds(lines: seq<string>, path: string, below: nat, open_: string, value: string)
    requires Slot(lines, path, below, open_) && '\n' !in value && below >= 1
    ensures Holds(LinesOf(Text(lines) + value), path, below, open_ + value)
  {
    var k := |lines| - 1 - below;
    TextTail(lines, k);
    SplitNoSep(value, '\n');
    SplitAppend(Text(lines), value, '\n');
    var x := LinesOf(Text(lines));
    var filled := LinesOf(Text(lines) + value);
    assert filled == x[..|x| - 1] + [x[|x| - 1] + value];
    var i := |AllLines(lines[..k])|;
    assert x[i] == path && x[|x| - 1] == open_ && |x| == i + below + 1;
    assert filled[i] == path && filled[i + below] == open_ + value;
  }

  lemma {:induction false} SectionHolds(sections: seq<string>, j: nat, path: string, below: nat, line: string)
    requires j < |sections| && Holds(LinesOf(sections[j]), path, below, line)
    ensures Holds(AllLines(sections), path, below, line)
    decreases j
  {
    if j > 0 {
      SectionHolds(sections[1..], j - 1, path, below, line);
    }
    HoldsAppend(LinesOf(sections[0]), AllLines(sections[1..]), path, below, line);
  }

  /**
   * The certificates, the key and the endpoint are where the kubelet looks for them: below its own
   * path each, and the endpoint in the kubeconfig's server line.
   */
  ghost predicate HoldsAll(lines: seq<string>, caCert: string, clientCert: string, clientKey: string,
                           endpoint: string) {
    && Holds(lines, CA_PATH, 2, CONTENT + caCert) && Holds(lines, CERT_PATH, 2, CONTENT + clientCert)
    && Holds(lines, KEY_PATH, 2, CONTENT + clientKey) && Holds(lines, KUBECONFIG_PATH, 7, SERVER + endpoint)
  }

  lemma SlotInDocument(t: Template, s: Slots, j: nat, lines: seq<string>, path: string, below: nat, open_: string,
                       value: string)
    requires OneLine(s) && j < 4 && Front(t, s)[j] == Text(lines) + value
    requires Slot(lines, path, below, open_) && '\n' !in value && below >= 1
    ensures Holds(LinesOf(Document(t, s)), path, below, open_ + value)
  {
    SlotHolds(lines, path, below, open_, value);
    SectionHolds(Front(t, s), j, path, below, open_ + value);
    DocumentLines(t, s);
    HoldsAppend(AllLines(Front(t, s)),
                LinesOf(s.config) + (LinesOf(Text(t.runcmd)) + IndentAll(LinesOf(BootScript(t, s.labels)), MARGIN)),
                path, below, open_ + value);
  }

  lemma CaSurvives(t: Template, s: Slots)
    requires OneLine(s) && WellFormed(t)
    ensures Holds(LinesOf(Document(t, s)), CA_PATH, 2, CONTENT + s.caCert)
  {
    SlotInDocument(t, s, 0, t.caCert, CA_PATH, 2, CONTENT, s.caCert);
  }

  lemma CertSurvives(t: Template, s: Slots)
    requires OneLine(s) && WellFormed(t)
    ensures Holds(LinesOf(Document(t, s)), CERT_PATH, 2, CONTENT + s.clientCert)
  {
    SlotInDocument(t, s, 1, t.clientCert, CERT_PATH, 2, CONTENT, s.clientCert);
  }

  lemma KeySurvives(t: Template, s: Slots)
    requires OneLine(s) && WellFormed(t)
    ensures Holds(LinesOf(Document(t, s)), KEY_PATH, 2, CONTENT + s.clientKey)
  {
    SlotInDocument(t, s, 2, t.clientKey, KEY_PATH, 2, CONTENT, s.clientKey);
  }

  lemma EndpointSurvives(t: Template, s: Slots)
    requires OneLine(s) && WellFormed(t)
    ensures Holds(LinesOf(Document(t, s)), KUBECONFIG_PATH, 7, SERVER + s.endpoint)
  {
    SlotInDocument(t, s, 3, t.endpoint, KUBECONFIG_PATH, 7, SERVER, s.endpoint);
  }

  lemma SlotsSurvive(t: Template, s: Slots)
    requires OneLine(s) && WellFormed(t)
    ensures HoldsAll(LinesOf(Document(t, s)), s.caCert, s.clientCert, s.clientKey, s.endpoint)
  {
    CaSurvives(t, s);
    CertSurvives(t, s);
    KeySurvives(t, s);
    EndpointSurvives(t, s);
  }

  /** Lines that are one each, and none of which assigns to the labels variable. */
  ghost predicate Passive(lines: seq<string>) {
    lines != [] && forall i :: 0 <= i < |lines| ==> PassiveLine(lines[i])
  }

  predicate PassiveLine(line: string) {
    '\n' !in line && !AssignsTo(line, BOOT.labelsVar)
  }

  /** After the given two lines, somewhere, follows a block scalar of that indentation that reads as `value`. */
  ghost predicate Reads(lines: seq<string>, key: string, header: string, indentation: Option<nat>, value: string) {
    exists k :: && 2 <= k <= |lines| && lines[k - 2] == key && lines[k - 1] == header
                && Detected(lines[k..]) == indentation && BlockScalar(lines[k..]) == value
  }

  lemma ReadsAt(before: seq<string>, key: string, header: string, after: seq<string>)
    requires EndsWith(before, key, header)
    ensures Reads(before + after, key, header, Detected(after), BlockScalar(after))
  {
    var lines := before + after;
    assert lines[|before| - 2] == key && lines[|before| - 1] == header && lines[|before|..] == after;
  }

  lemma ReadsAfter(a: seq<string>, b: seq<string>, before: seq<string>, key: string, header: string, after: seq<string>)
    requires EndsWith(before, key, header)
    ensures Reads(a + (b + (before + after)), key, header, Detected(after), BlockScalar(after))
  {
    assert a + (b + (before + after)) == (a + b + before) + after;
    ReadsAt(a + b + before, key, header, after);
  }

  /**
   * The kubelet configuration survives the document: a YAML reader that comes to its block scalar
   * gets the configuration back, clipped, for every accepted set of options.
   */
  lemma KubeletConfigSurvives(t: Template, s: Slots, head: seq<string>, taintsYaml: string)
    requires OneLine(s) && s.config == Indent(KubeletConfig(head, taintsYaml), 6)
    requires Flush(head) && WellFormed(t)
    ensures Reads(LinesOf(Document(t, s)), CONFIG_PATH, CONFIG_HEADER, Some(6),
                  Clip(LinesOf(KubeletConfig(head, taintsYaml))))
  {
    DocumentLines(t, s);
    var config := KubeletConfig(head, taintsYaml);
    var after := LinesOf(Text(t.runcmd)) + IndentAll(LinesOf(BootScript(t, s.labels)), MARGIN);
    FlushText(head, "\n" + (taintsYaml + "\n"));
    FlushText(t.runcmd, "");
    assert Text(t.runcmd) + "" == Text(t.runcmd);
    BlockScalarRoundTrip(config, 6, after);
    FrontEnds(t, s);
    ReadsAt(AllLines(Front(t, s)), CONFIG_PATH, CONFIG_HEADER, LinesOf(s.config) + after);
  }

  lemma EndsWithAppend(a: seq<string>, b: seq<string>, header: string, last: string)
    requires EndsWith(b, header, last)
    ensures EndsWith(a + b, header, last)
  {
  }

  lemma FrontEnds(t: Template, s: Slots)
    requires WellFormed(t)
    ensures EndsWith(AllLines(Front(t, s)), CONFIG_PATH, CONFIG_HEADER)
  {
    var slotted := Front(t, s)[..4];
    assert Front(t, s) == slotted + [Text(t.users)];
    AllLinesAppend(slotted, [Text(t.users)]);
    AllLinesOne(Text(t.users));
    TextEnds(t.users, CONFIG_PATH, CONFIG_HEADER);
    EndsWithAppend(AllLines(slotted), LinesOf(Text(t.users)), CONFIG_PATH, CONFIG_HEADER);
  }

  /** A text that ends in exactly one line break is not changed by clipping. */
  lemma ClipKeeps(s: string, last: string)
    requires last != "" && EndsWith(LinesOf(s), last, "")
    ensures Clip(LinesOf(s)) == s
  {
    var lines := LinesOf(s);
    var kept := lines[..|lines| - 1];
    assert DropTrailingEmpty(lines) == kept;
    JoinSplit(s, '\n');
    JoinSnoc(kept, "", '\n');
    assert lines == kept + [""];
  }

  lemma ScriptEnds(t: Template, quoted: string, last: string)
    requires EndsWith(t.scriptEnd, last, "")
    ensures EndsWith(LinesOf(BootScript(t, quoted)), last, "")
  {
    var parts := ScriptParts(t, quoted);
    LinesOfJoin(parts);
    assert parts == parts[..4] + [Text(t.scriptEnd)];
    AllLinesAppend(parts[..4], [Text(t.scriptEnd)]);
    AllLinesOne(Text(t.scriptEnd));
    TextEnds(t.scriptEnd, last, "");
  }

  lemma ScriptReads(script: string, last: string, start: seq<string>, rest: string)
    requires Flush(start) && script == Text(start) + ("\n" + rest)
    requires last != "" && EndsWith(LinesOf(script), last, "")
    ensures BlockScalar(IndentAll(LinesOf(script), MARGIN)) == script
    ensures Detected(IndentAll(LinesOf(script), MARGIN)) == Some(4)
  {
    FlushText(start, "\n" + rest);
    IndentedLines(script, MARGIN);
    BlockScalarRoundTrip(script, MARGIN, []);
    assert LinesOf(Indent(script, MARGIN)) + [] == IndentAll(LinesOf(script), MARGIN);
    ClipKeeps(script, last);
  }

  lemma BootScriptReads(t: Template, quoted: string)
    requires WellFormed(t)
    ensures BlockScalar(IndentAll(LinesOf(BootScript(t, quoted)), MARGIN)) == BootScript(t, quoted)
    ensures Detected(IndentAll(LinesOf(BootScript(t, quoted)), MARGIN)) == Some(4)
  {
    var last :| last != "" && EndsWith(t.scriptEnd, last, "");
    ScriptEnds(t, quoted, last);
    var parts := ScriptParts(t, quoted);
    var rest := Join(parts[1..], '\n');
    assert BootScript(t, quoted) == parts[0] + ['\n'] + rest;
    assert parts[0] + ['\n'] + rest == Text(t.scriptStart) + ("\n" + rest);
    ScriptReads(BootScript(t, quoted), last, t.scriptStart, rest);
  }

  /** The boot script survives the document: the reader of its block scalar gets it back exactly. */
  lemma ScriptSurvives(t: Template, s: Slots)
    requires OneLine(s) && WellFormed(t)
    ensures Reads(LinesOf(Document(t, s)), SCRIPT_KEY, SCRIPT_HEADER, Some(4), BootScript(t, s.labels))
  {
    DocumentLines(t, s);
    TextEnds(t.runcmd, SCRIPT_KEY, SCRIPT_HEADER);
    ReadsAfter(AllLines(Front(t, s)), LinesOf(s.config), LinesOf(Text(t.runcmd)), SCRIPT_KEY, SCRIPT_HEADER,
               IndentAll(LinesOf(BootScript(t, s.labels)), MARGIN));
    BootScriptReads(t, s.labels);
  }

  /** The script's lines, in order: those before the assignment, it, those after it, the kubelet's, and the rest. */
  predicate Assigns(script: string, t: Template, quoted: string) {
    LinesOf(script)
    == LinesOf(Text(t.scriptStart))
       + ([BOOT.labelsVar + "=" + quoted] + (t.scriptMiddle + (LinesOf(Text(t.kubelet)) + LinesOf(Text(t.scriptEnd)))))
  }

  lemma ScriptAssigns(t: Template, quoted: string)
    requires '\n' !in quoted && Passive(t.scriptMiddle)
    ensures Assigns(BootScript(t, quoted), t, quoted)
  {
    var parts := ScriptParts(t, quoted);
    LinesOfJoin(parts);
    LabelsCommandIsALine(quoted);
    SplitJoin(t.scriptMiddle, '\n');
    AllLinesFive(parts[0], parts[1], parts[2], parts[3], parts[4]);
    assert parts == [parts[0], parts[1], parts[2], parts[3], parts[4]];
  }

  lemma AllLinesFive(a: string, b: string, c: string, d: string, e: string)
    ensures AllLines([a, b, c, d, e]) == LinesOf(a) + (LinesOf(b) + (LinesOf(c) + (LinesOf(d) + LinesOf(e))))
  {
    assert [a, b, c, d, e][1..] == [b, c, d, e] && [b, c, d, e][1..] == [c, d, e] && [c, d, e][1..] == [d, e];
    assert [d, e][1..] == [e];
    AllLinesOne(e);
    assert AllLines([d, e]) == LinesOf(d) + LinesOf(e);
    assert AllLines([c, d, e]) == LinesOf(c) + AllLines([d, e]);
    assert AllLines([b, c, d, e]) == LinesOf(b) + AllLines([c, d, e]);
  }

  /**
   * Running the script from the assignment to the kubelet lines: `envs` are the variables after the
   * assignment and after each line from there to the kubelet lines, which start in `m`. Of these
   * lines, only assignments to the labels variable are taken to change it.
   */
  ghost predicate Reaches(quoted: string, before: Env, envs: seq<Env>, lines: seq<string>, m: Machine) {
    && Traces(envs, lines, BOOT.labelsVar) && m.env == envs[|lines|]
    && exists files, after ::
         Run(Machine(before, files), Assign(BOOT.labelsVar, quoted)) == Some(after) && after.env == envs[0]
  }

  lemma LabelsStillThere(labels: string, before: Env, envs: seq<Env>, lines: seq<string>, m: Machine)
    requires Reaches(Quote(labels), before, envs, lines, m) && Passive(lines)
    ensures BOOT.labelsVar in m.env && m.env[BOOT.labelsVar] == labels
  {
    QuoteRoundTrip(before, labels, "");
    assert Quote(labels) + "" == Quote(labels);
    Untouched(envs, lines, BOOT.labelsVar);
  }

  /**
   * The labels survive everything. The document's boot script, as a YAML reader gets it, assigns the
   * quoted labels and later runs the kubelet lines; and however it gets there, whatever variables are
   * set before and whatever other variables and files change on the way, the kubelet lines write a
   * file whose flags carry exactly these labels.
   */
  lemma LabelsSurvive(t: Template, opts: Options, labels: string, b64: string -> string, config: string,
                      before: Env, envs: seq<Env>, m: Machine)
    requires Accepted(opts, labels) && forall s :: '\n' !in b64(s)
    requires WellFormed(t) && Reaches(Quote(labels), before, envs, t.scriptMiddle, m)
    ensures var script := BootScript(t, Quote(labels));
            && Reads(LinesOf(Document(t, SlotsFor(opts, labels, b64, config))), SCRIPT_KEY, SCRIPT_HEADER,
                     Some(4), script)
            && Assigns(script, t, Quote(labels))
    ensures DefaultsFile(BOOT, m).Some? && ReadDefaults(BOOT, DefaultsFile(BOOT, m).value) == Some(BOOT.Args(labels))
  {
    AcceptedIsOneLine(opts, labels, b64, config);
    ScriptSurvives(t, SlotsFor(opts, labels, b64, config));
    SingleLineHasNoLineBreak(labels);
    ScriptAssigns(t, Quote(labels));
    LabelsStillThere(labels, before, envs, t.scriptMiddle, m);
    BootSound();
    LabelsReachKubelet(BOOT, before, labels, m);
  }

  lemma UsersEnd()
    ensures EndsWith(Templates.USERS, CONFIG_PATH, CONFIG_HEADER)
  {
  }

  lemma ScriptIsFlush()
    ensures Flush(Templates.KUBELET_CONFIG) && Flush(Templates.RUNCMD) && Flush(Templates.SCRIPT_START)
    ensures EndsWith(Templates.RUNCMD, SCRIPT_KEY, SCRIPT_HEADER)
    ensures EndsWith(Templates.SCRIPT_END, "systemctl restart kubelet", "")
  {
  }

  lemma ShortLinesPassive()
    ensures PassiveLine("") && PassiveLine("fi")
  {
    BootNamesSound();
  }

  /** A line whose first character other than a blank is not that of the variable does not assign to it. */
  lemma OtherFirstCharacter(line: string, blanks: nat)
    requires blanks < |line| && (forall i :: 0 <= i < blanks ==> line[i] == ' ') && line[blanks] !in " N"
    ensures !AssignsTo(line, BOOT.labelsVar)
    decreases blanks
  {
    if blanks == 0 {
      assert TrimBlanks(line) == line && (BOOT.labelsVar + "=")[0] == 'N';
    } else {
      OtherFirstCharacter(line[1..], blanks - 1);
    }
  }

  lemma HostsTestPassive()
    ensures PassiveLine(Templates.HOSTS_TEST)
  {
    OtherFirstCharacter(Templates.HOSTS_TEST, 0);
  }

  lemma HostsEntryPassive()
    ensures PassiveLine(Templates.HOSTS_ENTRY)
  {
    OtherFirstCharacter(Templates.HOSTS_ENTRY, 2);
  }

  lemma SetProviderPassive()
    ensures PassiveLine(Templates.SET_PROVIDER)
  {
    OtherFirstCharacter(Templates.SET_PROVIDER, 0);
  }

  lemma SetAddressPassive()
    ensures PassiveLine(Templates.SET_ADDRESS)
  {
    OtherFirstCharacter(Templates.SET_ADDRESS, 0);
  }

  lemma MiddleIsPassive()
    ensures Passive(Templates.SCRIPT_MIDDLE)
  {
    ShortLinesPassive();
    HostsTestPassive();
    HostsEntryPassive();
    SetProviderPassive();
    SetAddressPassive();
  }

  lemma CaSlot()
    ensures Slot(Templates.CA_CERT, CA_PATH, 2, CONTENT)
  {
  }

  lemma CertSlot()
    ensures Slot(Templates.KUBELET_CERT, CERT_PATH, 2, CONTENT)
  {
  }

  lemma KeySlot()
    ensures Slot(Templates.KUBELET_KEY, KEY_PATH, 2, CONTENT)
  {
  }

  lemma EndpointSlot()
    ensures Slot(Templates.ENDPOINT, KUBECONFIG_PATH, 7, SERVER)
  {
  }

  /** The repository's templates are as the readers need them. */
  lemma TemplatesAreWellFormed()
    ensures Flush(Templates.KUBELET_CONFIG) && WellFormed(CLOUD_INIT)
    ensures CLOUD_INIT.kubelet == KubeletLines(BOOT)
  {
    UsersEnd();
    ScriptIsFlush();
    MiddleIsPassive();
    CaSlot();
    CertSlot();
    KeySlot();
    EndpointSlot();
  }

  /** The label list in the kubelet's flags: what follows the labels flag. */
  function LabelList(args: string): string {
    var front := BASE + FLAG;
    if HasPrefix(args, front) then args[|front|..] else ""
  }

  lemma LabelListOfArgs(labels: string)
    ensures LabelList(BOOT.Args(labels)) == labels
  {
    var front := BASE + FLAG;
    if labels != "" {
      assert BOOT.Args(labels) == front + labels;
    }
  }

  /**
   * End to end, for every document Generate returns: its configuration scalar reads as the kubelet
   * configuration, clipped, and its script scalar as the boot script, which writes a file whose flags
   * list the labels; split again, that list is the label map exactly when the labels are separable.
   */
  lemma GeneratedBoots(doc: Result<string>, opts: Options, labels: string, b64: string -> string,
                       yaml: seq<Taint> -> Result<string>, before: Env, envs: seq<Env>, m: Machine)
    requires Serialized(opts.labels, labels)
    requires Generated(doc, opts, labels, b64, yaml, Templates.KUBELET_CONFIG, CLOUD_INIT) && doc.Ok?
    requires forall s :: '\n' !in b64(s)
    requires Reaches(Quote(labels), before, envs, Templates.SCRIPT_MIDDLE, m)
    ensures Delivers(doc.value, opts, labels, b64, yaml, Templates.KUBELET_CONFIG, CLOUD_INIT, m)
    ensures CLOUD_INIT.kubelet == KubeletLines(BOOT)
  {
    TemplatesAreWellFormed();
    GeneratedSurvives(doc, opts, labels, b64, yaml, Templates.KUBELET_CONFIG, CLOUD_INIT, before, envs, m);
  }

  /** What is read from a document, and what running its boot script up to `m` leads to. */
  ghost predicate Delivers(doc: string, opts: Options, labels: string, b64: string -> string,
                           yaml: seq<Taint> -> Result<string>, head: seq<string>, t: Template, m: Machine) {
    var script := BootScript(t, Quote(labels));
    var file := DefaultsFile(BOOT, m);
    && (opts.taints != [] ==> yaml(opts.taints).Ok?)
    && Reads(LinesOf(doc), CONFIG_PATH, CONFIG_HEADER, Some(6),
             Clip(LinesOf(Text(head) + ("\n" + ((if opts.taints == [] then "" else yaml(opts.taints).value) + "\n")))))
    && HoldsAll(LinesOf(doc), b64(opts.caCert), b64(opts.clientCert), b64(opts.clientKey), opts.endpoint)
    && Reads(LinesOf(doc), SCRIPT_KEY, SCRIPT_HEADER, Some(4), script)
    && Assigns(script, t, Quote(labels))
    && file.Some? && ReadDefaults(BOOT, file.value) == Some(if labels == "" then BASE else BASE + (FLAG + labels))
    && (Parse(LabelList(ReadDefaults(BOOT, file.value).value)) == Some(opts.labels) <==> Separable(opts.labels))
  }

  /** The same for any well-formed template. */
  lemma GeneratedSurvives(doc: Result<string>, opts: Options, labels: string, b64: string -> string,
                          yaml: seq<Taint> -> Result<string>, head: seq<string>, t: Template,
                          before: Env, envs: seq<Env>, m: Machine)
    requires Serialized(opts.labels, labels)
    requires Generated(doc, opts, labels, b64, yaml, head, t) && doc.Ok?
    requires Flush(head) && WellFormed(t) && forall s :: '\n' !in b64(s)
    requires Reaches(Quote(labels), before, envs, t.scriptMiddle, m)
    ensures Delivers(doc.value, opts, labels, b64, yaml, head, t, m)
  {
    var taintsYaml := TaintsYaml(yaml, opts.taints).value;
    var config := KubeletConfig(head, taintsYaml);
    AcceptedIsOneLine(opts, labels, b64, config);
    KubeletConfigSurvives(t, SlotsFor(opts, labels, b64, config), head, taintsYaml);
    SlotsSurvive(t, SlotsFor(opts, labels, b64, config));
    LabelsSurvive(t, opts, labels, b64, config, before, envs, m);
    LabelListOfArgs(labels);
    LabelsRoundTripExactly(opts.labels, labels);
  }
}
