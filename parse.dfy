/** Extraction of the repository directory (`gitdir`) from a request's
    pathname (parse-request.js): the operation's suffix is removed when
    it ends the pathname (`/\/info\/refs$/` and friends), then one leading
    slash (`/^\//`). Nothing else is done to the path. */
module Parse {
  import opened Common
  import opened Identify

  /** `s.replace(/<suffix>$/, '')` */
  function StripSuffix(s: string, suffix: string): (r: string)
    ensures EndsWith(s, suffix) ==> r + suffix == s
    ensures !EndsWith(s, suffix) ==> r == s
  {
    if EndsWith(s, suffix) then s[..|s| - |suffix|] else s
  }

  /** `s.replace(/^\//, '')` */
  function StripLeadingSlash(s: string): (r: string)
    ensures StartsWith(s, "/") ==> "/" + r == s
    ensures !StartsWith(s, "/") ==> r == s
  {
    if |s| > 0 && s[0] == '/' then s[1..] else s
  }

  /** The gitdir, from which the pathname can be rebuilt: it is the gitdir
      with at most one leading slash and, when the pathname ended with it,
      the suffix. */
  function Gitdir(pathname: string, suffix: string): (g: string)
    ensures EndsWith(pathname, suffix) ==> pathname == "/" + g + suffix || pathname == g + suffix
    ensures !EndsWith(pathname, suffix) ==> pathname == "/" + g || pathname == g
  {
    StripLeadingSlash(StripSuffix(pathname, suffix))
  }

  datatype InfoRefsTarget = InfoRefsTarget(gitdir: string, service: Option<string>)

  function ParseInfoRefs(r: Request): (t: InfoRefsTarget)
    ensures t.service == r.service
  {
    InfoRefsTarget(Gitdir(r.pathname, "/info/refs"), r.service)
  }

  function ParsePull(r: Request): (g: string)
    ensures EndsWith(r.pathname, "/git-upload-pack") ==>
              r.pathname == "/" + g + "/git-upload-pack" || r.pathname == g + "/git-upload-pack"
  {
    Gitdir(r.pathname, "/git-upload-pack")
  }

  function ParsePush(r: Request): (g: string)
    ensures EndsWith(r.pathname, "/git-receive-pack") ==>
              r.pathname == "/" + g + "/git-receive-pack" || r.pathname == g + "/git-receive-pack"
  {
    Gitdir(r.pathname, "/git-receive-pack")
  }

  /** Round trip: any directory name g, addressed as "/" + g + suffix,
      comes back unchanged; g may contain "..", slashes or be empty. */
  lemma {:induction false} GitdirRoundTrip(g: string, suffix: string)
    ensures Gitdir("/" + g + suffix, suffix) == g
  {
    var p := "/" + g + suffix;
    assert p[..|p| - |suffix|] == "/" + g;
    assert p[|p| - |suffix|..] == suffix;
    assert ("/" + g)[1..] == g;
  }

  lemma PushRoundTrip(r: Request, g: string)
    requires r.pathname == "/" + g + "/git-receive-pack"
    ensures ParsePush(r) == g
  {
    GitdirRoundTrip(g, "/git-receive-pack");
  }

  lemma PullRoundTrip(r: Request, g: string)
    requires r.pathname == "/" + g + "/git-upload-pack"
    ensures ParsePull(r) == g
  {
    GitdirRoundTrip(g, "/git-upload-pack");
  }

  lemma InfoRefsRoundTrip(r: Request, g: string)
    requires r.pathname == "/" + g + "/info/refs"
    ensures ParseInfoRefs(r) == InfoRefsTarget(g, r.service)
  {
    GitdirRoundTrip(g, "/info/refs");
  }

  /** The gitdir is a contiguous piece of the pathname, never longer than it:
      no segment is added, normalised or removed. */
  lemma {:induction false} GitdirIsPiece(pathname: string, suffix: string)
    ensures |Gitdir(pathname, suffix)| <= |pathname|
    ensures Includes(pathname, Gitdir(pathname, suffix))
  {
    var stripped := StripSuffix(pathname, suffix);
    var i := if StartsWith(stripped, "/") then 1 else 0;
    assert Gitdir(pathname, suffix) == pathname[i..|stripped|];
    IncludesSlice(pathname, i, |stripped|);
  }

  /** A pathname that does not end with the suffix only loses its leading slash. */
  lemma {:induction false} NoSuffixOnlySlash(pathname: string, suffix: string)
    requires !EndsWith(pathname, suffix)
    ensures Gitdir(pathname, suffix) == StripLeadingSlash(pathname)
  {
  }

  /** Only one leading slash goes. */
  lemma DoubleSlashKept()
    ensures Gitdir("//a/info/refs", "/info/refs") == "/a"
  {
    GitdirRoundTrip("/a", "/info/refs");
    assert "/" + "/a" + "/info/refs" == "//a/info/refs";
  }

  /** The suffix must follow a slash: "repogit-receive-pack" is kept whole. */
  lemma UnslashedSuffixKept()
    ensures Gitdir("/repogit-receive-pack", "/git-receive-pack") == "repogit-receive-pack"
  {
    var p := "/repogit-receive-pack";
    assert p[|p| - 17] == 'o';
    assert !EndsWith(p, "/git-receive-pack");
  }
}
