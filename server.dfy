/** The request dispatcher of server.ts: which handler a request reaches,
    decided by its method and its URL's pathname. The two path regexes are
    read as predicates over the string, and their meaning is pinned down by
    the paths they accept: the apps prefix, one slash-free segment and, for
    machines, the "/machines" suffix. */
module Server {
  /** The handler a request reaches. */
  datatype Route =
    | CreateApp                   // apps.create
    | DestroyApp                  // apps.destroy
    | CreateMachine(app: string)  // machines.create, with the app named in the path
    | ProxyUpstream               // api.proxy

  const AppsPath := "/v1/apps"
  const AppsPrefix := "/v1/apps/"
  const MachinesSuffix := "/machines"

  /** `/^\/v1\/apps\/[^\/]+$/`: the apps prefix, then one or more characters none of which is '/'. */
  predicate MatchesAppPath(p: string) {
    |p| > |AppsPrefix| && p[..|AppsPrefix|] == AppsPrefix && '/' !in p[|AppsPrefix|..]
  }

  /** `/^\/v1\/apps\/([^\/]+)\/machines$/`: the apps prefix, a non-empty
      slash-free app name, then "/machines". */
  predicate MatchesMachinesPath(p: string) {
    && |p| > |AppsPrefix| + |MachinesSuffix|
    && p[..|AppsPrefix|] == AppsPrefix
    && p[|p| - |MachinesSuffix|..] == MachinesSuffix
    && '/' !in p[|AppsPrefix|..|p| - |MachinesSuffix|]
  }

  /** The regex's capture group: the app name between prefix and suffix. */
  function MachinesApp(p: string): string
    requires MatchesMachinesPath(p)
  {
    p[|AppsPrefix|..|p| - |MachinesSuffix|]
  }

  /** The app-path regex accepts the apps prefix followed by a segment
      exactly when the segment is non-empty and has no '/', and every path
      it accepts is of that form. */
  lemma AppPathShape(seg: string, p: string)
    ensures MatchesAppPath(AppsPrefix + seg) <==> seg != "" && '/' !in seg
    ensures MatchesAppPath(p) ==> p == AppsPrefix + p[|AppsPrefix|..]
  {
    var q := AppsPrefix + seg;
    assert q[..|AppsPrefix|] == AppsPrefix && q[|AppsPrefix|..] == seg;
    if MatchesAppPath(p) {
      assert p == p[..|AppsPrefix|] + p[|AppsPrefix|..];
    }
  }

  /** The machines-path regex accepts prefix, segment and suffix exactly
      when the segment is non-empty and has no '/'; its capture is that
      segment, and every path it accepts is rebuilt from its capture. */
  lemma MachinesPathShape(seg: string, p: string)
    ensures MatchesMachinesPath(AppsPrefix + seg + MachinesSuffix) <==> seg != "" && '/' !in seg
    ensures seg != "" && '/' !in seg ==> MachinesApp(AppsPrefix + seg + MachinesSuffix) == seg
    ensures MatchesMachinesPath(p) ==> p == AppsPrefix + MachinesApp(p) + MachinesSuffix
  {
    var q := AppsPrefix + seg + MachinesSuffix;
    assert q[..|AppsPrefix|] == AppsPrefix;
    assert q[|q| - |MachinesSuffix|..] == MachinesSuffix;
    assert q[|AppsPrefix|..|q| - |MachinesSuffix|] == seg;
    if MatchesMachinesPath(p) {
      var a := |AppsPrefix|;
      var b := |p| - |MachinesSuffix|;
      assert p == p[..a] + p[a..b] + p[b..];
    }
  }

  /** No path matches both regexes: an app path has no '/' after the
      prefix, a machines path does. Neither matches the bare apps path. */
  lemma RoutesDisjoint(p: string)
    ensures !(MatchesAppPath(p) && MatchesMachinesPath(p))
    ensures !MatchesAppPath(AppsPath) && !MatchesMachinesPath(AppsPath)
  {
    if MatchesMachinesPath(p) {
      var i := |p| - |MachinesSuffix|;
      assert p[|AppsPrefix|..][i - |AppsPrefix|] == p[i..][0] == '/';
    }
  }

  /** The `fetch` handler's classifier: POST on exactly /v1/apps creates an
      app, DELETE on one segment below it destroys one, POST on an app's
      machines path creates a machine with the captured name, and
      everything else is proxied. */
  function Dispatch(verb: string, pathname: string): (r: Route)
    ensures r == CreateApp <==> pathname == AppsPath && verb == "POST"
    ensures r == DestroyApp <==> MatchesAppPath(pathname) && verb == "DELETE"
    ensures r.CreateMachine? <==> MatchesMachinesPath(pathname) && verb == "POST"
    ensures r.CreateMachine? ==> AppsPrefix + r.app + MachinesSuffix == pathname && r.app != "" && '/' !in r.app
    ensures r == ProxyUpstream <==>
      && !(pathname == AppsPath && verb == "POST")
      && !(MatchesAppPath(pathname) && verb == "DELETE")
      && !(MatchesMachinesPath(pathname) && verb == "POST")
  {
    RoutesDisjoint(pathname);
    if pathname == AppsPath && verb == "POST" then CreateApp
    else if MatchesAppPath(pathname) && verb == "DELETE" then DestroyApp
    else if MatchesMachinesPath(pathname) && verb == "POST" then
      MachinesPathShape(MachinesApp(pathname), pathname);
      CreateMachine(MachinesApp(pathname))
    else ProxyUpstream
  }
}
