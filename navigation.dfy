/**
 * Single-page-app page-view tracking: after the initial page view, every
 * location change (history push/replace, `popstate`, `hashchange`) is
 * compared with the last tracked URL under the configured policy, and a page
 * view is tracked when they differ.
 */
module Navigation {
  import opened Values
  import opened Strings

  /** `url.split('#')[0]`: the URL without its fragment. */
  function WithoutFragment(url: string): (r: string)
    ensures '#' !in r
  {
    Split(url, '#')[0]
  }

  /** `url.split('#')[0].split('?')[0]`: the URL without fragment and query. */
  function PathOnly(url: string): (r: string)
    ensures '#' !in r && '?' !in r
  {
    var p := Split(WithoutFragment(url), '?')[0];
    assert forall i :: 0 <= i < |p| ==> p[i] in WithoutFragment(url) by {
      SplitFirstIsPrefix(WithoutFragment(url), '?');
    }
    p
  }

  /** The first part of a split is a prefix of the string. */
  lemma SplitFirstIsPrefix(s: string, c: char)
    ensures IsPrefix(Split(s, c)[0], s)
  {
  }

  /** `singlePageAppTracking` unset, empty or `any`. */
  predicate IsAnyMode(mode: Option<string>) {
    mode.None? || mode.value == "" || mode.value == "any"
  }

  /** Location-change listeners are installed unless the option is `disabled`. */
  predicate Listening(mode: Option<string>) {
    mode != Some("disabled")
  }

  /** The URL comparison of the location-change listener. */
  function ShouldDispatch(mode: Option<string>, trackedUrl: string, lastUrl: string): (track: bool)
    ensures IsAnyMode(mode) ==> (track <==> trackedUrl != lastUrl)
    ensures mode == Some("path-with-query") ==> (track <==> WithoutFragment(trackedUrl) != WithoutFragment(lastUrl))
    ensures mode == Some("path") ==> (track <==> PathOnly(trackedUrl) != PathOnly(lastUrl))
    ensures !IsAnyMode(mode) && mode != Some("path-with-query") && mode != Some("path") ==> !track
  {
    if IsAnyMode(mode) then trackedUrl != lastUrl
    else if mode.value == "path-with-query" then WithoutFragment(trackedUrl) != WithoutFragment(lastUrl)
    else if mode.value == "path" then PathOnly(trackedUrl) != PathOnly(lastUrl)
    else false
  }

  /** The URL with and without its fragment agree on what precedes `#`. */
  lemma WithoutFragmentOf(p: string, fragment: string)
    requires '#' !in p
    ensures WithoutFragment(p) == p
    ensures WithoutFragment(p + "#" + fragment) == p
  {
    SplitAtFirst(p, '#', fragment);
    assert p + "#" + fragment == p + ['#'] + fragment;
  }

  /** Any mode dispatches on a change of fragment alone; `path-with-query`
      and `path` do not. */
  lemma FragmentChange(p: string, f1: string, f2: string)
    requires '#' !in p && f1 != f2
    ensures ShouldDispatch(None, p + "#" + f2, p + "#" + f1)
    ensures !ShouldDispatch(Some("path-with-query"), p + "#" + f2, p + "#" + f1)
    ensures !ShouldDispatch(Some("path"), p + "#" + f2, p + "#" + f1)
  {
    WithoutFragmentOf(p, f1);
    WithoutFragmentOf(p, f2);
    assert (p + "#" + f2)[|p| + 1..] == f2;
    assert (p + "#" + f1)[|p| + 1..] == f1;
  }

  /** `path-with-query` dispatches on a change of query, `path` does not. */
  lemma QueryChange(path: string, q1: string, q2: string)
    requires '#' !in path && '?' !in path && '#' !in q1 && '#' !in q2 && q1 != q2
    ensures ShouldDispatch(Some("path-with-query"), path + "?" + q2, path + "?" + q1)
    ensures !ShouldDispatch(Some("path"), path + "?" + q2, path + "?" + q1)
  {
    QueryPart(path, q1);
    QueryPart(path, q2);
    assert (path + "?" + q2)[|path| + 1..] == q2;
    assert (path + "?" + q1)[|path| + 1..] == q1;
  }

  lemma QueryPart(path: string, q: string)
    requires '#' !in path && '?' !in path && '#' !in q
    ensures WithoutFragment(path + "?" + q) == path + "?" + q
    ensures PathOnly(path + "?" + q) == path
  {
    var u := path + "?" + q;
    assert '#' !in u by {
      assert forall i :: 0 <= i < |u| ==> u[i] == (if i < |path| then path[i] else if i == |path| then '?' else q[i - |path| - 1]);
    }
    SplitAtFirst(path, '?', q);
    assert u == path + ['?'] + q;
  }

  /** The listener's state: the last URL a page view was tracked for. */
  class PageViewTracker {
    const mode: Option<string>
    var lastUrlTracked: string

    /** Set up after the initial page view of `initialUrl`. */
    constructor (mode: Option<string>, initialUrl: string)
      ensures this.mode == mode && lastUrlTracked == initialUrl
    {
      this.mode := mode;
      lastUrlTracked := initialUrl;
    }

    /** A location change to `trackedUrl`: reports whether a page view is
        tracked, and moves `lastUrlTracked` only when one is. */
    method OnLocationChange(trackedUrl: string) returns (track: bool)
      modifies this
      ensures track == ShouldDispatch(mode, trackedUrl, old(lastUrlTracked))
      ensures lastUrlTracked == if track then trackedUrl else old(lastUrlTracked)
    {
      track := false;
      if IsAnyMode(mode) {
        track := trackedUrl != lastUrlTracked;
      } else if mode.value == "path-with-query" {
        track := WithoutFragment(trackedUrl) != WithoutFragment(lastUrlTracked);
      } else if mode.value == "path" {
        track := PathOnly(trackedUrl) != PathOnly(lastUrlTracked);
      }
      if track {
        lastUrlTracked := trackedUrl;
      }
    }
  }

  /** Revisiting the last tracked URL never dispatches, whatever the mode. */
  lemma SameUrlNeverDispatches(mode: Option<string>, url: string)
    ensures !ShouldDispatch(mode, url, url)
  {
  }
}
