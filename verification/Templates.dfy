/** The literal text of the two templates, line by line, cut at their slots. */
module Templates {
  import opened ShellQuoting

  /** The kubelet configuration up to the taints. */
  const KUBELET_CONFIG: seq<string> := [
    "apiVersion: kubelet.config.k8s.io/v1beta1",
    "kind: KubeletConfiguration",
    "address: ADDRESS_PLACEHOLDER",
    "providerID: PROVIDER_ID_PLACEHOLDER",
    "authentication:",
    "  anonymous:",
    "    enabled: false",
    "  webhook:",
    "    cacheTTL: 0s",
    "    enabled: true",
    "  x509:",
    "    clientCAFile: /etc/kubernetes/pki/ca.crt",
    "authorization:",
    "  mode: Webhook",
    "  webhook:",
    "    cacheAuthorizedTTL: 0s",
    "    cacheUnauthorizedTTL: 0s",
    "cgroupDriver: systemd",
    "clusterDNS:",
    "- 10.96.0.10",
    "clusterDomain: cluster.local",
    "containerRuntimeEndpoint: unix:///var/run/containerd/containerd.sock",
    "healthzBindAddress: 127.0.0.1",
    "healthzPort: 10248",
    "imageGCHighThresholdPercent: 85",
    "logging:",
    "  verbosity: 0",
    "resolvConf: /run/systemd/resolve/resolv.conf",
    "rotateCertificates: true",
    "staticPodPath: /etc/kubernetes/manifests"]

  /** The cloud-init document; the slot follows the last line of each of the first four parts. */
  const CA_CERT: seq<string> := [
    "#cloud-config",
    "",
    "manage_etc_hosts: false",
    "",
    "write_files:",
    "  - path: /etc/kubernetes/pki/ca.crt",
    "    encoding: b64",
    "    content: "]

  const KUBELET_CERT: seq<string> := [
    "  - path: " + "/var/lib/kubelet/pki/kubelet-client.crt",
    "    encoding: b64",
    "    content: "]

  const KUBELET_KEY: seq<string> := [
    "  - path: " + "/var/lib/kubelet/pki/kubelet-client.key",
    "    encoding: b64",
    "    content: "]

  const ENDPOINT: seq<string> := [
    "    permissions: \"0600\"",
    "  - path: /etc/kubernetes/kubelet.conf",
    "    content: |",
    "      apiVersion: v1",
    "      kind: Config",
    "      clusters:",
    "      - cluster:",
    "          certificate-authority: " + "/etc/kubernetes/pki/ca.crt",
    "          server: "]

  /** Up to the header of the kubelet configuration's block scalar. */
  const USERS: seq<string> := [
    "        name: default-cluster",
    "      contexts:",
    "      - context:",
    "          cluster: default-cluster",
    "          namespace: default",
    "          user: default-auth",
    "        name: default-context",
    "      current-context: default-context",
    "      users:",
    "      - name: default-auth",
    "        user:",
    "          client-certificate: /var/lib/kubelet/pki/kubelet-client-current.pem",
    "          client-key: /var/lib/kubelet/pki/kubelet-client-current.pem",
    "  - path: /var/lib/kubelet/config.yaml",
    "    content: |"]

  /** From the end of that scalar to the header of the boot script's block scalar. */
  const RUNCMD: seq<string> := [
    "runcmd:",
    "  - |"]

  /** The boot script, without its indentation: up to the labels assignment, */
  const SCRIPT_START: seq<string> := [
    "# Combine cert + key (UKS convention)",
    "cat /var/lib/kubelet/pki/kubelet-client.crt /var/lib/kubelet/pki/kubelet-client.key \\",
    "  > /var/lib/kubelet/pki/kubelet-client-current.pem",
    "chmod 600 /var/lib/kubelet/pki/kubelet-client-current.pem",
    "",
    "# Discover private IP via metadata service",
    "for i in $(curl -s http://169.254.169.254/metadata/v1/network/interfaces/); do",
    "  if [ \"$(curl -s http://169.254.169.254/metadata/v1/network/interfaces/$i/type)\" = \"private\" ]; then",
    "    PRIVATE_IP=$(curl -s http://169.254.169.254/metadata/v1/network/interfaces/$i/ip_addresses/1/address)",
    "    break",
    "  fi",
    "done",
    "",
    "PROVIDER_ID=\"upcloud:////$(curl -s http://169.254.169.254/metadata/v1/instance_id)\""]

  const CONFIG := " /var/lib/kubelet/config.yaml"
  const HOSTS_TEST := "if ! grep -q \"$(hostname)\"" + " /etc/hosts; then"
  const HOSTS_ENTRY := "  echo \"$PRIVATE_IP  $(hostname)\"" + " >> /etc/hosts"
  const SET_PROVIDER := "sed -i \"s|PROVIDER_ID_PLACEHOLDER|" + "$PROVIDER_ID|\"" + CONFIG
  const SET_ADDRESS := "sed -i \"s|ADDRESS_PLACEHOLDER|" + "$PRIVATE_IP|\"" + CONFIG

  /** from there to the kubelet lines, */
  const SCRIPT_MIDDLE: seq<string> := ["", HOSTS_TEST, HOSTS_ENTRY, "fi", "", SET_PROVIDER, SET_ADDRESS, ""]

  /** the kubelet lines, whose reading ShellQuoting models, */
  const KUBELET: seq<string> := KubeletLines(BOOT)

  /** and the rest. */
  const SCRIPT_END: seq<string> := [
    "",
    "systemctl daemon-reload",
    "systemctl restart kubelet",
    ""]
}
