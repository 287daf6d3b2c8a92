/**
 Routing to agents: the endpoint printed by `src/manager/agent.config.ts`, the agent id that
 `src/router/agent.router.service.ts` reads out of a request path, and the prefix that
 `src/router/agent.router.module.ts` strips before the request is passed on.
 */
module Router {
  import opened Runs

  const PREFIX := "/v1/router/"

  /** JavaScript's `split` on one character. */
  function Split(s: string, sep: char): (parts: seq<string>)
    ensures parts != []
    ensures forall i | 0 <= i < |parts| :: sep !in parts[i]
  {
    if s == [] then [""]
    else
      var rest := Split(s[1..], sep);
      if s[0] == sep then [""] + rest else [[s[0]] + rest[0]] + rest[1..]
  }

  /** Its inverse, `join`. */
  function Join(parts: seq<string>, sep: char): string
    requires parts != []
  {
    if |parts| == 1 then parts[0] else parts[0] + [sep] + Join(parts[1..], sep)
  }

  /** The longest prefix without any of the characters of `stops`. */
  function Until(s: string, stops: set<char>): (head: string)
    ensures head <= s
    ensures forall i | 0 <= i < |head| :: head[i] !in stops
    ensures |head| < |s| ==> s[|head|] in stops
  {
    if s == [] || s[0] in stops then [] else [s[0]] + Until(s[1..], stops)
  }

  /** `req.path`: the URL without its query. */
  function PathOf(url: string): string { Until(url, {'?'}) }

  /** `getRouter`: the fourth part of the path, `undefined` when there are fewer. */
  function RoutedId(url: string): Option<string> {
    var parts := Split(PathOf(url), '/');
    if |parts| > 3 then Some(parts[3]) else None
  }

  /** `pathRewrite`: the URL without what matches `^/v1/router/[^/]+/?`, unchanged when nothing does. */
  function Rewrite(url: string): string {
    if !(PREFIX <= url) then url
    else
      var rest := url[|PREFIX|..];
      var segment := Until(rest, {'/'});
      if segment == [] then url
      else if |segment| < |rest| then rest[|segment| + 1..] else []
  }

  /** The part of the URL the rewrite rule takes for the agent id. */
  function RewrittenId(url: string): Option<string> {
    if !(PREFIX <= url) then None
    else
      var segment := Until(url[|PREFIX|..], {'/'});
      if segment == [] then None else Some(segment)
  }

  /** The path of an agent's public endpoint. */
  function EndpointPath(agentId: string): string { PREFIX + agentId }

  // ---------------------------------------------------------------- lemmas about the parsers

  lemma {:induction false} JoinSplit(s: string, sep: char)
    ensures Join(Split(s, sep), sep) == s
  {
    if s != [] {
      JoinSplit(s[1..], sep);
      var rest := Split(s[1..], sep);
      if s[0] == sep {
        assert ([""] + rest)[1..] == rest;
      } else {
        assert ([[s[0]] + rest[0]] + rest[1..])[1..] == rest[1..];
      }
    }
  }

  lemma {:induction false} SplitStart(head: string, tail: string, sep: char)
    requires sep !in head
    ensures Split(head + [sep] + tail, sep) == [head] + Split(tail, sep)
  {
    var s := head + [sep] + tail;
    if head == [] {
      assert s[1..] == tail;
    } else {
      SplitStart(head[1..], tail, sep);
      assert s[1..] == head[1..] + [sep] + tail;
      assert s[0] == head[0] && [head[0]] + head[1..] == head;
    }
  }

  lemma {:induction false} SplitFirst(s: string, sep: char)
    ensures Split(s, sep)[0] == Until(s, {sep})
  {
    if s != [] {
      SplitFirst(s[1..], sep);
    }
  }

  lemma {:induction false} UntilAfter(head: string, tail: string, stops: set<char>)
    requires forall i | 0 <= i < |head| :: head[i] !in stops
    ensures Until(head + tail, stops) == head + Until(tail, stops)
  {
    if head == [] {
      assert head + tail == tail;
    } else {
      UntilAfter(head[1..], tail, stops);
      UntilOne(head, tail, stops);
      assert [head[0]] + (head[1..] + Until(tail, stops)) == head + Until(tail, stops);
    }
  }

  lemma UntilOne(head: string, tail: string, stops: set<char>)
    requires head != [] && head[0] !in stops
    ensures Until(head + tail, stops) == [head[0]] + Until(head[1..] + tail, stops)
  {
    assert (head + tail)[1..] == head[1..] + tail;
  }

  lemma {:induction false} UntilStop(head: string, tail: string, stops: set<char>)
    requires forall i | 0 <= i < |head| :: head[i] !in stops
    requires tail != [] ==> tail[0] in stops
    ensures Until(head + tail, stops) == head
  {
    UntilAfter(head, tail, stops);
  }

  lemma {:induction false} UntilTwice(s: string, a: set<char>, b: set<char>)
    ensures Until(Until(s, a), b) == Until(s, a + b)
  {
    if s != [] && s[0] !in a {
      UntilTwice(s[1..], a, b);
    }
  }

  // ---------------------------------------------------------------- where the agent id ends

  lemma SplitRoot(path: string)
    ensures Split("/v1/router/" + path, '/') == [""] + Split("v1/router/" + path, '/')
  {
    SplitStart("", "v1/router/" + path, '/');
    assert "/v1/router/" + path == "" + ['/'] + ("v1/router/" + path);
  }

  lemma SplitVersion(path: string)
    ensures Split("v1/router/" + path, '/') == ["v1"] + Split("router/" + path, '/')
  {
    SplitStart("v1", "router/" + path, '/');
    assert "v1/router/" + path == "v1" + ['/'] + ("router/" + path);
  }

  lemma SplitRouter(path: string)
    ensures Split("router/" + path, '/') == ["router"] + Split(path, '/')
  {
    SplitStart("router", path, '/');
    assert "router/" + path == "router" + ['/'] + path;
  }

  lemma SplitPrefixed(path: string)
    ensures Split(PREFIX + path, '/') == ["", "v1", "router"] + Split(path, '/')
  {
    SplitRoot(path);
    SplitVersion(path);
    SplitRouter(path);
  }

  /** The router takes the characters after the prefix up to the first slash or question mark. */
  lemma RouterStopsAtSlashOrQuery(rest: string)
    ensures RoutedId(PREFIX + rest) == Some(Until(rest, {'/', '?'}))
  {
    UntilAfter(PREFIX, rest, {'?'});
    SplitPrefixed(Until(rest, {'?'}));
    SplitFirst(Until(rest, {'?'}), '/');
    UntilTwice(rest, {'?'}, {'/'});
    assert {'?'} + {'/'} == {'/', '?'};
  }

  /**
   Round trip: a request for `rest` at an agent's endpoint is routed to that agent and arrives there
   as `rest`, query and all.
   */
  lemma EndpointRoundTrip(agentId: string, rest: string)
    requires agentId != [] && '/' !in agentId && '?' !in agentId
    ensures var url := EndpointPath(agentId) + "/" + rest;
            RoutedId(url) == Some(agentId) && RewrittenId(url) == Some(agentId) && Rewrite(url) == rest
    ensures RoutedId(EndpointPath(agentId)) == Some(agentId) && Rewrite(EndpointPath(agentId)) == ""
  {
    var tail := "/" + rest;
    assert EndpointPath(agentId) + "/" + rest == PREFIX + (agentId + tail);
    assert (PREFIX + (agentId + tail))[|PREFIX|..] == agentId + tail;
    RouterStopsAtSlashOrQuery(agentId + tail);
    UntilStop(agentId, tail, {'/', '?'});
    UntilStop(agentId, tail, {'/'});
    assert (agentId + tail)[|agentId| + 1..] == rest;
    assert agentId + "" == agentId && (PREFIX + agentId)[|PREFIX|..] == agentId;
    RouterStopsAtSlashOrQuery(agentId);
    UntilStop(agentId, "", {'/', '?'});
    UntilStop(agentId, "", {'/'});
  }

  /**
   On any URL that the rewrite rule matches, it and the router mean the same agent exactly when what
   the rule strips holds no question mark: a query right after the agent id is taken for part of it.
   */
  lemma RouterAndRewriterAgreeExactlyWithoutQuery(url: string)
    requires RewrittenId(url).Some?
    ensures RoutedId(url) == RewrittenId(url) <==> '?' !in RewrittenId(url).value
  {
    var rest := url[|PREFIX|..];
    assert url == PREFIX + rest;
    RouterStopsAtSlashOrQuery(rest);
    UntilTwice(rest, {'/'}, {'?'});
    assert {'/'} + {'?'} == {'/', '?'};
    var segment := Until(rest, {'/'});
    if '?' !in segment {
      assert segment + "" == segment;
      UntilStop(segment, "", {'?'});
    }
  }

  lemma RewriteTakesAll(rest: string)
    requires rest != [] && '/' !in rest
    ensures RewrittenId(PREFIX + rest) == Some(rest) && Rewrite(PREFIX + rest) == ""
  {
    assert (PREFIX + rest)[|PREFIX|..] == rest && rest + "" == rest;
    UntilStop(rest, "", {'/'});
  }

  lemma RouterTakesHead(head: string, tail: string)
    requires '/' !in head && '?' !in head && tail != [] && tail[0] == '?'
    ensures RoutedId(PREFIX + (head + tail)) == Some(head)
  {
    RouterStopsAtSlashOrQuery(head + tail);
    UntilStop(head, tail, {'/', '?'});
  }

  /** They do differ: a query right after the agent id is routed to the agent and rewritten away with it. */
  lemma QueryAfterIdIsLost(agentId: string, query: string)
    requires agentId != [] && '/' !in agentId && '?' !in agentId && '/' !in query
    ensures var url := EndpointPath(agentId) + (['?'] + query);
            && RoutedId(url) == Some(agentId) && RewrittenId(url) == Some(agentId + (['?'] + query))
            && Rewrite(url) == "" && RoutedId(url) != RewrittenId(url)
  {
    var tail := ['?'] + query;
    assert PREFIX + agentId + tail == PREFIX + (agentId + tail);
    RouterTakesHead(agentId, tail);
    RewriteTakesAll(agentId + tail);
    assert |agentId + tail| > |agentId|;
  }
}
