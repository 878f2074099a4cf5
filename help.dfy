/**
 * `Krang.Help`: the help topic of the current page and the address of the
 * help window that `Krang.Help.go` opens.
 *
 * A topic of `''`, `null` or `undefined` is falsy in JavaScript; the model
 * writes the missing ones as `None` and the empty string as itself.
 */
module Help {
  import opened Wrappers
  import W = WindowId

  const Page := "help.pl"
  const TopicQuery := "?topic="

  /** `'help.pl'`, then `'?topic=' + topic` when the topic is non-empty, then
      `'#' + subtopic` when the subtopic is non-empty. */
  function HelpUrl(topic: string, subtopic: string): (url: string)
    ensures |url| >= |Page| && url[..|Page|] == Page
    ensures topic == "" && subtopic == "" <==> url == Page
  {
    var withTopic := if topic != "" then Page + TopicQuery + topic else Page;
    if subtopic != "" then withTopic + "#" + subtopic else withTopic
  }

  /** A topic passed to `go` if it is truthy, otherwise the page's own. */
  function Pick(given: Option<string>, current: string): (r: string)
    ensures given.Some? && given.value != "" ==> r == given.value
    ensures given.None? || given.value == "" ==> r == current
  {
    match given
    case Some(g) => if g != "" then g else current
    case None => current
  }

  predicate NoHash(s: string) {
    forall i :: 0 <= i < |s| ==> s[i] != '#'
  }

  /** The first position of `c` in `s`, or `|s|`. */
  function Find(s: string, c: char): (k: nat)
    ensures k <= |s|
    ensures k < |s| ==> s[k] == c
  {
    if |s| == 0 || s[0] == c then 0 else 1 + Find(s[1..], c)
  }

  /** Reads a help address back into its topic and subtopic: the reference
      against which `HelpUrl` is checked. */
  function ParseHelpUrl(url: string): Option<(string, string)> {
    if |url| < |Page| || url[..|Page|] != Page then None
    else
      var parts := SplitRest(url[|Page|..]);
      ReadQuery(parts.0, parts.1)
  }

  /** The part after the page name: a query, then '#' and the subtopic. */
  function SplitRest(rest: string): (string, string) {
    var hash := Find(rest, '#');
    (rest[..hash], if hash < |rest| then rest[hash + 1..] else "")
  }

  /** An empty query or `'?topic=' + topic` with a non-empty topic. */
  function ReadQuery(query: string, subtopic: string): Option<(string, string)> {
    if query == "" then Some(("", subtopic))
    else if |query| > |TopicQuery| && query[..|TopicQuery|] == TopicQuery then
      Some((query[|TopicQuery|..], subtopic))
    else None
  }

  /** In a '#'-free text followed by nothing or by '#', the first '#' is
      right after the text. */
  lemma {:induction false} FindPastNoHash(q: string, tail: string)
    requires NoHash(q) && (tail == "" || tail[0] == '#')
    ensures Find(q + tail, '#') == |q|
    decreases |q|
  {
    if q == "" {
      assert q + tail == tail;
    } else {
      assert (q + tail)[0] == q[0];
      assert (q + tail)[1..] == q[1..] + tail;
      FindPastNoHash(q[1..], tail);
    }
  }

  lemma QueryNoHash(topic: string)
    requires NoHash(topic)
    ensures NoHash(TopicQuery + topic)
  {
    var q := TopicQuery + topic;
    forall i | 0 <= i < |q|
      ensures q[i] != '#'
    {
      if i >= |TopicQuery| {
        assert q[i] == topic[i - |TopicQuery|];
      }
    }
  }

  /** The page name is a prefix of every address built on it. */
  lemma PagePrefix(rest: string)
    ensures (Page + rest)[..|Page|] == Page && (Page + rest)[|Page|..] == rest
  {
  }

  /** The part after the page name splits at its first '#' into the query
      and the subtopic. */
  lemma SplitAtHash(query: string, subtopic: string)
    requires NoHash(query)
    ensures SplitRest(query + Fragment(subtopic)) == (query, subtopic)
  {
    var rest := query + Fragment(subtopic);
    FindPastNoHash(query, Fragment(subtopic));
    assert rest[..|query|] == query;
    if subtopic != "" {
      assert rest[|query| + 1..] == subtopic;
    }
  }

  lemma TopicSplit(topic: string)
    requires topic != ""
    ensures |TopicQuery + topic| > |TopicQuery|
    ensures (TopicQuery + topic)[..|TopicQuery|] == TopicQuery
    ensures (TopicQuery + topic)[|TopicQuery|..] == topic
  {
  }

  /** The query part of a help address: empty when there is no topic. */
  function Query(topic: string): string {
    if topic != "" then TopicQuery + topic else ""
  }

  /** The fragment part of a help address: empty when there is no subtopic. */
  function Fragment(subtopic: string): string {
    if subtopic != "" then "#" + subtopic else ""
  }

  lemma HelpUrlParts(topic: string, subtopic: string)
    ensures HelpUrl(topic, subtopic) == Page + (Query(topic) + Fragment(subtopic))
  {
    if topic != "" && subtopic != "" {
      assert Page + TopicQuery + topic + "#" + subtopic == Page + (TopicQuery + topic + ("#" + subtopic));
    }
  }

  lemma ReadQueryOf(topic: string, subtopic: string)
    ensures ReadQuery(Query(topic), subtopic) == Some((topic, subtopic))
  {
    if topic != "" {
      TopicSplit(topic);
    }
  }

  /** The help address names the topic and subtopic it was built from, as
      long as the topic holds no '#' (a '#' in the topic would be read as
      the start of the subtopic). */
  lemma HelpUrlRoundTrip(topic: string, subtopic: string)
    requires NoHash(topic)
    ensures ParseHelpUrl(HelpUrl(topic, subtopic)) == Some((topic, subtopic))
  {
    HelpUrlParts(topic, subtopic);
    PagePrefix(Query(topic) + Fragment(subtopic));
    if topic != "" {
      QueryNoHash(topic);
    }
    SplitAtHash(Query(topic), subtopic);
    ReadQueryOf(topic, subtopic);
  }

  /** `Krang.Help`: the topic and subtopic of the current page. */
  class Topics {
    var currentTopic: string
    var currentSubtopic: string

    constructor()
      ensures currentTopic == "" && currentSubtopic == ""
    {
      currentTopic := "";
      currentSubtopic := "";
    }

    /** `Krang.Help.set(topic, subtopic)`. */
    method Set(topic: string, subtopic: string)
      modifies this
      ensures currentTopic == topic && currentSubtopic == subtopic
    {
      currentTopic := topic;
      currentSubtopic := subtopic;
    }

    /** The address `Krang.Help.go(topic, subtopic)` opens: each argument
        that is missing or empty falls back to the page's own. */
    function GoUrl(topic: Option<string>, subtopic: Option<string>): (url: string)
      reads this
      ensures NoHash(Pick(topic, currentTopic))
        ==> ParseHelpUrl(url) == Some((Pick(topic, currentTopic), Pick(subtopic, currentSubtopic)))
    {
      var t := Pick(topic, currentTopic);
      var s := Pick(subtopic, currentSubtopic);
      assert NoHash(t) ==> ParseHelpUrl(HelpUrl(t, s)) == Some((t, s)) by {
        if NoHash(t) {
          HelpUrlRoundTrip(t, s);
        }
      }
      HelpUrl(t, s)
    }

    /** `Krang.Help.go(topic, subtopic)`: computes the address, passes the
        window id in `window`'s cookie jar, and returns the address the
        pop-up opens. */
    method Go(window: W.Window, topic: Option<string>, subtopic: Option<string>) returns (url: string)
      modifies window
      ensures NoHash(Pick(topic, currentTopic))
        ==> ParseHelpUrl(url) == Some((Pick(topic, currentTopic), Pick(subtopic, currentSubtopic)))
      ensures window.jar == W.JarAfterPassId(old(window.name), old(window.jar), window.encode, window.decode)
      ensures window.name == old(window.name) && window.title == old(window.title)
      ensures window.location == old(window.location)
    {
      url := GoUrl(topic, subtopic);
      window.PassId();
    }

    /** The address the old snapshot's `Krang.Help.go()` opens: always the
        page's own topic and subtopic. */
    function LegacyGoUrl(): (url: string)
      reads this
      ensures NoHash(currentTopic) ==> ParseHelpUrl(url) == Some((currentTopic, currentSubtopic))
    {
      GoUrl(None, None)
    }
  }
}
