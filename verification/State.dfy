/** The runtime snapshot of one lab and the checks on it (internal/state/state.go). */
module State {
  import opened Options
  import opened Strings
  import opened Names

  datatype ContainerState = ContainerState(id: string, pid: int, configDir: string)

  /** A nil map is None; `owned` is None in snapshots of releases that kept no bridge inventory. */
  datatype LabState = LabState(lab: string, digest: string, containers: Option<map<string, ContainerState>>,
                               owned: Option<map<string, string>>)

  /** hex.DecodeString takes either case. */
  predicate IsHexDigit(c: char) {
    '0' <= c <= '9' || 'a' <= c <= 'f' || 'A' <= c <= 'F'
  }

  predicate IsDigest(digest: string) {
    HasPrefix(digest, "sha256:") && |digest| == 7 + 64
    && forall i :: 7 <= i < |digest| ==> IsHexDigit(digest[i])
  }

  predicate LabNameOk(lab: string) {
    !Blank(lab) && IsPathComponent(lab)
  }

  predicate ContainerOk(router: string, c: ContainerState) {
    !Blank(router) && !Blank(c.id) && c.pid >= 0
  }

  /** Each entry is the bridge this lab would name for the link. */
  predicate OwnedOk(bridge: string -> string, owned: map<string, string>) {
    forall link :: link in owned ==> !Blank(link) && owned[link] == bridge(link)
  }

  /** `LabState.Validate`, where `bridge` names the bridge of a link of the lab. */
  predicate Validates(bridge: string -> string, s: LabState, lab: string) {
    && LabNameOk(s.lab) && s.lab == lab
    && IsDigest(s.digest)
    && s.containers.Some? && (forall r :: r in s.containers.value ==> ContainerOk(r, s.containers.value[r]))
    && (s.owned.Some? ==> OwnedOk(bridge, s.owned.value))
  }
}
