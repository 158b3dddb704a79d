/** The `proto://host/version` composition shared by the API client's and the metadata
    client's `updateHostURL`: every empty setting falls back to its own default. */
module HostURLs {

  /** The three components of a host URL. */
  datatype HostParts = HostParts(scheme: string, host: string, version: string)

  /** A setting of the client wins over the default unless it is empty. */
  function Effective(setting: string, default: string): (r: string)
    ensures setting != "" ==> r == setting
    ensures setting == "" ==> r == default
  {
    if setting != "" then setting else default
  }

  /** The components a client with the given settings talks to. */
  function Resolve(baseURL: string, apiVersion: string, apiProto: string, defaults: HostParts): (p: HostParts)
    ensures p.scheme == Effective(apiProto, defaults.scheme)
    ensures p.host == Effective(baseURL, defaults.host)
    ensures p.version == Effective(apiVersion, defaults.version)
  {
    HostParts(Effective(apiProto, defaults.scheme), Effective(baseURL, defaults.host), Effective(apiVersion, defaults.version))
  }

  /** `fmt.Sprintf("%s://%s/%s", proto, host, version)`. */
  function Render(p: HostParts): (u: string)
    ensures |u| == |p.scheme| + |p.host| + |p.version| + 4
    ensures u[..|p.scheme|] == p.scheme && u[|u| - |p.version|..] == p.version
  {
    p.scheme + "://" + p.host + "/" + p.version
  }

  /** With no setting at all, the client talks to its defaults. */
  lemma NoSettingsGiveDefaults(defaults: HostParts)
    ensures Resolve("", "", "", defaults) == defaults
  {
  }

  /** A non-empty setting replaces its own component and leaves the other two as they were. */
  lemma OverrideReplacesOnlyItsComponent(baseURL: string, apiVersion: string, apiProto: string, defaults: HostParts, s: string)
    requires s != ""
    ensures Resolve(s, apiVersion, apiProto, defaults) == Resolve(baseURL, apiVersion, apiProto, defaults).(host := s)
    ensures Resolve(baseURL, s, apiProto, defaults) == Resolve(baseURL, apiVersion, apiProto, defaults).(version := s)
    ensures Resolve(baseURL, apiVersion, s, defaults) == Resolve(baseURL, apiVersion, apiProto, defaults).(scheme := s)
  {
  }

  /** The rendered URL starts with the scheme followed by `://`, and ends with `/` and the version. */
  lemma RenderShape(p: HostParts)
    ensures Render(p)[..|p.scheme| + 3] == p.scheme + "://"
    ensures Render(p)[|Render(p)| - |p.version| - 1..] == "/" + p.version
  {
    assert Render(p) == (p.scheme + "://") + (p.host + "/" + p.version);
    assert Render(p) == (p.scheme + "://" + p.host) + ("/" + p.version);
  }
}
