/** The import panel of components/ApacheParser.tsx: a text buffer that
    collects pasted text and loaded files, and `parseConfig`, which cuts the
    buffer into `<VirtualHost>` blocks, reads each block's first
    `ServerName` and first `ProxyPass / http(s)://host` directive, drops the
    candidates whose url the dashboard already lists, and reports one of
    four outcomes. The three regular expressions of the source are written
    out as scanners that follow the leftmost-match semantics of the
    JavaScript engine. */
module ApacheParser {
  import opened Types
  import opened Text

  const VhostOpen: string := "<VirtualHost"
  const VhostClose: string := "</VirtualHost>"

  // ---------------------------------------------------------------------
  // Block segmentation: /<VirtualHost[\s\S]*?<\/VirtualHost>/g
  // ---------------------------------------------------------------------

  /** The end of the block match attempted at `i`: the opening tag at `i`
      and then, lazily, the nearest closing tag after it. */
  function VhostMatchAt(s: string, i: nat): (r: Option<nat>)
  {
    if IsAt(s, i, VhostOpen) then
      match FindFrom(s, VhostClose, i + |VhostOpen|)
      case Some(j) => Some(j + |VhostClose|)
      case None => None
    else None
  }

  /** A block from `start` to `end`: it opens with `<VirtualHost`, closes
      with `</VirtualHost>`, and no closing tag occurs between the two. */
  ghost predicate IsBlockSpan(s: string, start: nat, end: nat)
  {
    && start + |VhostOpen| + |VhostClose| <= end <= |s|
    && IsAt(s, start, VhostOpen)
    && IsAt(s, end - |VhostClose|, VhostClose)
    && forall k :: start + |VhostOpen| <= k < end - |VhostClose| ==> !IsAt(s, k, VhostClose)
  }

  /** A successful match attempt at `i` spans a block. */
  lemma VhostMatchIsBlock(s: string, i: nat)
    ensures VhostMatchAt(s, i).Some? ==> IsBlockSpan(s, i, VhostMatchAt(s, i).value)
  {
  }

  /** The attempt at `i` succeeds exactly for an opening tag that has a
      closing tag somewhere after it. */
  lemma VhostMatchAtIff(s: string, i: nat)
    ensures VhostMatchAt(s, i).Some? <==>
              IsAt(s, i, VhostOpen) && exists k :: i + |VhostOpen| <= k && IsAt(s, k, VhostClose)
  {
    if IsAt(s, i, VhostOpen) && VhostMatchAt(s, i).None? {
      assert forall k :: i + |VhostOpen| <= k ==> !IsAt(s, k, VhostClose);
    }
  }

  /** The leftmost position at or after `from` where the block pattern
      matches. */
  function FirstVhost(s: string, from: nat): (r: Option<nat>)
    decreases |s| + 1 - from
    ensures r.Some? ==> from <= r.value && VhostMatchAt(s, r.value).Some?
    ensures r.Some? ==> forall k :: from <= k < r.value ==> VhostMatchAt(s, k).None?
    ensures r.None? ==> forall k :: from <= k ==> VhostMatchAt(s, k).None?
  {
    if from > |s| then None
    else if VhostMatchAt(s, from).Some? then Some(from)
    else FirstVhost(s, from + 1)
  }

  datatype Span = Span(start: nat, end: nat)

  /** Spans that are blocks at or after `from`, run left to right and do
      not overlap. */
  ghost predicate OrderedBlockSpans(s: string, from: nat, r: seq<Span>)
  {
    && (forall n :: 0 <= n < |r| ==> from <= r[n].start < r[n].end)
    && (forall n :: 0 <= n < |r| ==> VhostMatchAt(s, r[n].start) == Some(r[n].end))
    && (forall n :: 0 < n < |r| ==> r[n - 1].end <= r[n].start)
  }

  /** A block followed by ordered spans from its end on gives ordered spans. */
  lemma OrderedBlockSpansCons(s: string, from: nat, x: Span, rest: seq<Span>)
    requires from <= x.start < x.end && VhostMatchAt(s, x.start) == Some(x.end)
    requires OrderedBlockSpans(s, x.end, rest)
    ensures OrderedBlockSpans(s, from, [x] + rest)
  {
    var r := [x] + rest;
    forall n | 0 <= n < |r|
      ensures from <= r[n].start < r[n].end && VhostMatchAt(s, r[n].start) == Some(r[n].end)
    {
      if n > 0 { assert r[n] == rest[n - 1]; }
    }
    forall n | 0 < n < |r| ensures r[n - 1].end <= r[n].start {
      assert r[n] == rest[n - 1];
      if n > 1 { assert r[n - 1] == rest[n - 2]; }
    }
  }

  /** The successive matches of the global block pattern from `from` on:
      each is the leftmost match at or after the previous one's end. */
  function VhostSpans(s: string, from: nat): (r: seq<Span>)
    decreases |s| + 1 - from
    ensures OrderedBlockSpans(s, from, r)
  {
    match FirstVhost(s, from)
    case None => []
    case Some(i) =>
      VhostMatchIsBlock(s, i);
      var e := VhostMatchAt(s, i).value;
      OrderedBlockSpansCons(s, from, Span(i, e), VhostSpans(s, e));
      [Span(i, e)] + VhostSpans(s, e)
  }

  /** Where the scan for the next block resumes after the first `n` spans. */
  function ResumeAt(spans: seq<Span>, from: nat, n: nat): nat
    requires n <= |spans|
  {
    if n == 0 then from else spans[n - 1].end
  }

  /** Resuming after `n` spans of a list that starts with `x` is resuming
      after `n - 1` spans of the rest, from the end of `x`. */
  lemma ResumeAtCons(x: Span, rest: seq<Span>, from: nat, n: nat)
    requires 0 < n <= |rest| + 1
    ensures ResumeAt([x] + rest, from, n) == ResumeAt(rest, x.end, n - 1)
  {
    if n > 1 {
      assert ([x] + rest)[n - 1] == rest[n - 2];
    }
  }

  /** The `n`-th span starts at the leftmost match after the point where
      the scan resumed. */
  lemma {:induction false} SpanIsLeftmost(s: string, from: nat, n: nat)
    requires n < |VhostSpans(s, from)|
    ensures FirstVhost(s, ResumeAt(VhostSpans(s, from), from, n)) == Some(VhostSpans(s, from)[n].start)
    decreases n
  {
    var r := VhostSpans(s, from);
    if n > 0 {
      var i := FirstVhost(s, from).value;
      var e := VhostMatchAt(s, i).value;
      var rest := VhostSpans(s, e);
      assert r == [Span(i, e)] + rest;
      SpanIsLeftmost(s, e, n - 1);
      ResumeAtCons(Span(i, e), rest, from, n);
      assert r[n] == rest[n - 1];
    }
  }

  /** After the last span no match is left. */
  lemma {:induction false} SpansExhausted(s: string, from: nat)
    ensures FirstVhost(s, ResumeAt(VhostSpans(s, from), from, |VhostSpans(s, from)|)) == None
    decreases |s| + 1 - from
  {
    var r := VhostSpans(s, from);
    if FirstVhost(s, from).Some? {
      var i := FirstVhost(s, from).value;
      var e := VhostMatchAt(s, i).value;
      VhostMatchIsBlock(s, i);
      var rest := VhostSpans(s, e);
      assert r == [Span(i, e)] + rest;
      SpansExhausted(s, e);
      ResumeAtCons(Span(i, e), rest, from, |r|);
    }
  }

  /** Each span starts at the leftmost match after the point where the
      scan resumed, and after the last span there is no match left. */
  lemma VhostSpansLeftmost(s: string, from: nat)
    ensures forall n :: 0 <= n < |VhostSpans(s, from)| ==>
              FirstVhost(s, ResumeAt(VhostSpans(s, from), from, n)) == Some(VhostSpans(s, from)[n].start)
    ensures FirstVhost(s, ResumeAt(VhostSpans(s, from), from, |VhostSpans(s, from)|)) == None
  {
    forall n | 0 <= n < |VhostSpans(s, from)|
      ensures FirstVhost(s, ResumeAt(VhostSpans(s, from), from, n)) == Some(VhostSpans(s, from)[n].start)
    {
      SpanIsLeftmost(s, from, n);
    }
    SpansExhausted(s, from);
  }

  /** `configText.match(vhostRegex) || []`: the text of each block. */
  function Blocks(s: string): (r: seq<string>)
    ensures |r| == |VhostSpans(s, 0)|
    ensures forall n :: 0 <= n < |r| ==>
              r[n] == s[VhostSpans(s, 0)[n].start..VhostSpans(s, 0)[n].end]
  {
    var spans := VhostSpans(s, 0);
    seq(|spans|, n requires 0 <= n < |spans| => s[spans[n].start..spans[n].end])
  }

  /** The text of one block span opens with `<VirtualHost`, ends with the
      nearest `</VirtualHost>` and holds no other closing tag. */
  lemma SpanIsNearestPair(s: string, a: nat, b: nat)
    requires IsBlockSpan(s, a, b)
    ensures && IsAt(s[a..b], 0, VhostOpen)
            && EndsWith(s[a..b], VhostClose)
            && forall k :: |VhostOpen| <= k < |s[a..b]| - |VhostClose| ==>
                 !IsAt(s[a..b], k, VhostClose)
  {
    IsAtSlice(s, a, b, 0, VhostOpen);
    IsAtSlice(s, a, b, b - a - |VhostClose|, VhostClose);
    forall k | |VhostOpen| <= k < b - a - |VhostClose| ensures !IsAt(s[a..b], k, VhostClose) {
      IsAtSlice(s, a, b, k, VhostClose);
    }
  }

  /** Each block's text opens with `<VirtualHost`, ends with the nearest
      `</VirtualHost>` and holds no other closing tag. */
  lemma BlocksAreNearestPairs(s: string)
    ensures forall n :: 0 <= n < |Blocks(s)| ==>
              && IsAt(Blocks(s)[n], 0, VhostOpen)
              && EndsWith(Blocks(s)[n], VhostClose)
              && forall k :: |VhostOpen| <= k < |Blocks(s)[n]| - |VhostClose| ==>
                   !IsAt(Blocks(s)[n], k, VhostClose)
  {
    var spans := VhostSpans(s, 0);
    forall n | 0 <= n < |spans|
      ensures && IsAt(Blocks(s)[n], 0, VhostOpen)
              && EndsWith(Blocks(s)[n], VhostClose)
              && forall k :: |VhostOpen| <= k < |Blocks(s)[n]| - |VhostClose| ==>
                   !IsAt(Blocks(s)[n], k, VhostClose)
    {
      var a, b := spans[n].start, spans[n].end;
      VhostMatchIsBlock(s, a);
      SpanIsNearestPair(s, a, b);
    }
  }

  /** A text that opens with `<VirtualHost`, ends with `</VirtualHost>` and
      has no other `<` is exactly one block. */
  lemma SingleBlock(t: string)
    requires |VhostOpen| + |VhostClose| <= |t|
    requires IsAt(t, 0, VhostOpen) && EndsWith(t, VhostClose)
    requires forall k :: 0 < k < |t| - |VhostClose| ==> t[k] != '<'
    ensures Blocks(t) == [t]
  {
    var c := |t| - |VhostClose|;
    var f := FindFrom(t, VhostClose, |VhostOpen|);
    assert f.Some?;
    assert t[f.value] == VhostClose[0];
    assert f.value == c;
    assert VhostMatchAt(t, 0) == Some(|t|);
    assert FirstVhost(t, 0) == Some(0);
    assert FirstVhost(t, |t| + 1) == None;
    assert FirstVhost(t, |t|) == None;
    assert VhostSpans(t, |t|) == [];
    assert VhostSpans(t, 0) == [Span(0, |t|)];
    assert t[0..|t|] == t;
  }

  /** There are no blocks exactly when no opening tag has a closing tag
      somewhere after it. */
  lemma NoBlocksIff(s: string)
    ensures |Blocks(s)| == 0 <==>
              forall i: nat :: IsAt(s, i, VhostOpen) ==>
                forall k :: i + |VhostOpen| <= k ==> !IsAt(s, k, VhostClose)
  {
    var spans := VhostSpans(s, 0);
    VhostSpansLeftmost(s, 0);
    assert |spans| == 0 ==> FirstVhost(s, 0) == None;
    forall i: nat | IsAt(s, i, VhostOpen)
      ensures |spans| == 0 ==> forall k :: i + |VhostOpen| <= k ==> !IsAt(s, k, VhostClose)
    {
      VhostMatchAtIff(s, i);
    }
    if |spans| > 0 {
      VhostMatchIsBlock(s, spans[0].start);
      assert IsBlockSpan(s, spans[0].start, spans[0].end);
    }
  }

  // ---------------------------------------------------------------------
  // Directive scanning inside a block
  //   /ServerName\s+([^\s\n#]+)/
  //   /ProxyPass\s+\/\s+(https:\/\/[^\s\n\/]+|http:\/\/[^\s\n\/]+)/
  // ---------------------------------------------------------------------

  datatype Directive = ServerName | ProxyPass

  /** The server-name pattern attempted at `i`: the keyword, at least one
      space, then the longest run of characters other than spaces and `#`,
      which must not be empty. Backtracking cannot help: a shorter space run
      leaves a space where the value must start. */
  function ServerNameAt(s: string, i: nat): (r: Option<string>)
  {
    if IsAt(s, i, "ServerName") && i + 10 < |s| && IsSpace(s[i + 10]) then
      var k := SkipSpaces(s, i + 10);
      var e := RunEnd(s, k, '#');
      if k < e then Some(s[k..e]) else None
    else None
  }

  /** `https://` or `http://` followed by the longest non-empty run of
      characters other than spaces and `/`, attempted at `m`. */
  function SchemeHostAt(s: string, m: nat): (r: Option<string>)
  {
    if IsAt(s, m, "https://") && RunEnd(s, m + 8, '/') > m + 8 then
      Some(s[m..RunEnd(s, m + 8, '/')])
    else if IsAt(s, m, "http://") && RunEnd(s, m + 7, '/') > m + 7 then
      Some(s[m..RunEnd(s, m + 7, '/')])
    else None
  }

  /** The proxy pattern attempted at `i`: the keyword, spaces, a lone `/`,
      spaces, then a scheme and host. */
  function ProxyTargetAt(s: string, i: nat): (r: Option<string>)
  {
    if IsAt(s, i, "ProxyPass") && i + 9 < |s| && IsSpace(s[i + 9]) then
      var k := SkipSpaces(s, i + 9);
      if k + 1 < |s| && s[k] == '/' && IsSpace(s[k + 1]) then
        SchemeHostAt(s, SkipSpaces(s, k + 1))
      else None
    else None
  }

  function DirectiveAt(d: Directive, s: string, i: nat): Option<string>
  {
    match d
    case ServerName => ServerNameAt(s, i)
    case ProxyPass => ProxyTargetAt(s, i)
  }

  /** The leftmost position in `[from, limit]` where the attempt `at`
      succeeds: how a regular expression without the global flag scans. */
  function FirstHit<T>(at: nat -> Option<T>, from: nat, limit: nat): (r: Option<nat>)
    decreases limit + 1 - from
    ensures r.Some? ==> from <= r.value <= limit && at(r.value).Some?
    ensures r.Some? ==> forall k :: from <= k < r.value ==> at(k).None?
    ensures r.None? ==> forall k :: from <= k <= limit ==> at(k).None?
  {
    if from > limit then None
    else if at(from).Some? then Some(from)
    else FirstHit(at, from + 1, limit)
  }

  /** A success at `p` with only failures before it is the first hit. */
  lemma FirstHitAt<T>(at: nat -> Option<T>, from: nat, limit: nat, p: nat)
    requires from <= p <= limit && at(p).Some?
    requires forall k :: from <= k < p ==> at(k).None?
    ensures FirstHit(at, from, limit) == Some(p)
  {
  }

  /** The leftmost position at or after `from` where the directive's pattern
      matches. */
  function FirstDirectivePos(d: Directive, s: string, from: nat): Option<nat>
  {
    FirstHit(k => DirectiveAt(d, s, k), from, |s|)
  }

  /** `block.match(regex)` without the global flag: the first match wins. */
  function FirstDirective(d: Directive, s: string): Option<string>
  {
    match FirstDirectivePos(d, s, 0)
    case None => None
    case Some(p) => DirectiveAt(d, s, p)
  }

  /** A server name is a non-empty run free of spaces and `#`. */
  ghost predicate IsServerNameValue(v: string)
  {
    |v| > 0 && forall k :: 0 <= k < |v| ==> !IsSpace(v[k]) && v[k] != '#'
  }

  /** Free of spaces and `/` from index `n` on. */
  ghost predicate IsHostPart(v: string, n: nat)
  {
    forall k :: n <= k < |v| ==> !IsSpace(v[k]) && v[k] != '/'
  }

  /** A proxy target is `http://` or `https://` followed by a non-empty host
      part free of spaces and `/`. */
  ghost predicate IsProxyTargetValue(v: string)
  {
    || (|v| > 8 && IsAt(v, 0, "https://") && IsHostPart(v, 8))
    || (|v| > 7 && IsAt(v, 0, "http://") && IsHostPart(v, 7))
  }

  /** What the server-name pattern captures at a position is a server name
      that follows the keyword there. */
  lemma ServerNameShape(s: string, i: nat)
    ensures ServerNameAt(s, i).Some? ==>
              IsAt(s, i, "ServerName") && IsServerNameValue(ServerNameAt(s, i).value)
  {
  }

  /** What the proxy pattern captures at a position is a proxy target that
      follows the keyword there. */
  lemma ProxyTargetShape(s: string, i: nat)
    ensures ProxyTargetAt(s, i).Some? ==>
              IsAt(s, i, "ProxyPass") && IsProxyTargetValue(ProxyTargetAt(s, i).value)
  {
    if ProxyTargetAt(s, i).Some? {
      var m := SkipSpaces(s, SkipSpaces(s, i + 9) + 1);
      if IsAt(s, m, "https://") && RunEnd(s, m + 8, '/') > m + 8 {
        IsAtSlice(s, m, RunEnd(s, m + 8, '/'), 0, "https://");
      } else {
        IsAtSlice(s, m, RunEnd(s, m + 7, '/'), 0, "http://");
      }
    }
  }

  /** A match at `p` with none before it is the first match. */
  lemma FirstDirectivePosAt(d: Directive, s: string, p: nat)
    requires p <= |s| && DirectiveAt(d, s, p).Some?
    requires forall k :: 0 <= k < p ==> DirectiveAt(d, s, k).None?
    ensures FirstDirective(d, s) == DirectiveAt(d, s, p)
  {
    FirstHitAt(k => DirectiveAt(d, s, k), 0, |s|, p);
  }

  /** A well-formed `ServerName` value at `p` with no keyword before it is
      the first directive, and its value is read back exactly. */
  lemma ServerNameFirst(s: string, p: nat, n: string)
    requires IsAt(s, p, "ServerName ") && IsAt(s, p + 11, n) && IsServerNameValue(n)
    requires p + 11 + |n| < |s| && IsSpace(s[p + 11 + |n|])
    requires forall k :: 0 <= k < p ==> !IsAt(s, k, "ServerName")
    ensures FirstDirective(ServerName, s) == Some(n)
  {
    IsAtTrans(s, p, "ServerName ", 0, "ServerName");
    assert s[p + 10] == "ServerName "[10];
    assert s[p + 11] == n[0];
    assert SkipSpaces(s, p + 10) == p + 11;
    forall k | p + 11 <= k < p + 11 + |n| ensures !IsSpace(s[k]) && s[k] != '#' {
      assert s[k] == n[k - p - 11];
    }
    RunEndAtSpace(s, p + 11, '#', p + 11 + |n|);
    assert s[p + 11..p + 11 + |n|] == n;
    assert ServerNameAt(s, p) == Some(n);
    forall k | 0 <= k < p ensures DirectiveAt(ServerName, s, k).None? {
      assert !IsAt(s, k, "ServerName");
    }
    FirstDirectivePosAt(ServerName, s, p);
  }

  /** A proxy target written at `m` and followed by `/` is read back
      exactly by the scheme-and-host pattern. */
  lemma SchemeHostReadBack(s: string, m: nat, t: string)
    requires IsProxyTargetValue(t)
    requires m + |t| < |s| && s[m + |t|] == '/'
    requires forall j :: 0 <= j < |t| ==> s[m + j] == t[j]
    ensures SchemeHostAt(s, m) == Some(t)
  {
    if |t| > 8 && IsAt(t, 0, "https://") && IsHostPart(t, 8) {
      assert IsAt(s, m, "https://");
      forall k | m + 8 <= k < m + |t| ensures !IsSpace(s[k]) && s[k] != '/' {
        assert s[k] == t[k - m];
      }
      RunEndAt(s, m + 8, '/', m + |t|);
    } else {
      assert t[4] == "http://"[4];
      assert s[m + 4] != 's';
      assert IsAt(s, m, "http://");
      forall k | m + 7 <= k < m + |t| ensures !IsSpace(s[k]) && s[k] != '/' {
        assert s[k] == t[k - m];
      }
      RunEndAt(s, m + 7, '/', m + |t|);
    }
    assert s[m..m + |t|] == t;
  }

  /** A well-formed `ProxyPass / target/` at `p` with no keyword before it
      is the first proxy directive, and its target is read back exactly. */
  lemma ProxyPassFirst(s: string, p: nat, t: string)
    requires IsAt(s, p, "ProxyPass / ") && IsAt(s, p + 12, t) && IsProxyTargetValue(t)
    requires p + 12 + |t| < |s| && s[p + 12 + |t|] == '/'
    requires forall k :: 0 <= k < p ==> !IsAt(s, k, "ProxyPass")
    ensures FirstDirective(ProxyPass, s) == Some(t)
  {
    IsAtTrans(s, p, "ProxyPass / ", 0, "ProxyPass");
    assert s[p + 9] == "ProxyPass / "[9] && s[p + 10] == "ProxyPass / "[10];
    assert s[p + 11] == "ProxyPass / "[11];
    assert SkipSpaces(s, p + 9) == p + 10;
    var m := p + 12;
    assert t[0] == 'h' by {
      if |t| > 8 && IsAt(t, 0, "https://") {
        assert t[0] == "https://"[0];
      } else {
        assert t[0] == "http://"[0];
      }
    }
    assert s[m] == t[0];
    assert SkipSpaces(s, p + 11) == m;
    SchemeHostReadBack(s, m, t);
    assert ProxyTargetAt(s, p) == Some(t);
    FirstDirectivePosAt(ProxyPass, s, p);
  }

  // ---------------------------------------------------------------------
  // Candidates, de-duplication and the outcome
  // ---------------------------------------------------------------------

  /** `Omit<LinkItem, 'id' | 'type' | 'proxyConfig' | 'enabled'>` as the
      parser builds it. */
  datatype ParsedLink = ParsedLink(title: string, url: string, description: string, icon: Option<string>)

  /** The candidate a block yields: both directives must match. */
  function Extract(block: string): (r: Option<ParsedLink>)
  {
    match (FirstDirective(ServerName, block), FirstDirective(ProxyPass, block))
    case (Some(name), Some(target)) =>
      Some(ParsedLink(name, "http://" + name, "Apache Reverse Proxy to " + target + " (Detected)", None))
    case _ => None
  }

  /** A block yields a candidate exactly when it has both a server name and
      a proxy target; the candidate is titled with the server name, its url
      is that name over plain http, it names the target in its description
      and has no icon. */
  lemma ExtractSpec(block: string)
    ensures Extract(block).Some? <==>
              FirstDirective(ServerName, block).Some? && FirstDirective(ProxyPass, block).Some?
    ensures Extract(block).Some? ==>
              var c := Extract(block).value;
              var target := FirstDirective(ProxyPass, block).value;
              && c.title == FirstDirective(ServerName, block).value
              && IsServerNameValue(c.title)
              && c.url == "http://" + c.title
              && c.description == "Apache Reverse Proxy to " + target + " (Detected)"
              && IsProxyTargetValue(target)
              && c.icon == None
  {
    match FirstDirectivePos(ServerName, block, 0)
    case None =>
    case Some(p) =>
      ServerNameShape(block, p);
      match FirstDirectivePos(ProxyPass, block, 0)
      case None =>
      case Some(q) => ProxyTargetShape(block, q);
  }

  /** The `map` to candidates or null followed by the `filter` of nulls. */
  function Detect(blocks: seq<string>): (r: seq<ParsedLink>)
    ensures |r| <= |blocks|
    ensures forall c :: c in r ==> exists b :: b in blocks && Extract(b) == Some(c)
    ensures forall b :: b in blocks && Extract(b).Some? ==> Extract(b).value in r
  {
    if blocks == [] then []
    else match Extract(blocks[0])
      case Some(c) => [c] + Detect(blocks[1..])
      case None => Detect(blocks[1..])
  }

  /** Candidates keep block order: detection distributes over
      concatenation of the block list. */
  lemma {:induction false} DetectKeepsOrder(a: seq<string>, b: seq<string>)
    ensures Detect(a + b) == Detect(a) + Detect(b)
  {
    if a == [] {
      assert a + b == b;
    } else {
      assert (a + b)[1..] == a[1..] + b;
      DetectKeepsOrder(a[1..], b);
    }
  }

  /** `detectedLinks.filter(pl => !existingUrls.has(pl.url))`. Candidates
      are compared with the existing urls only, never with each other. */
  function KeepNew(cands: seq<ParsedLink>, existing: set<string>): (r: seq<ParsedLink>)
    ensures |r| <= |cands|
    ensures forall c :: c in r <==> c in cands && c.url !in existing
  {
    if cands == [] then []
    else if cands[0].url in existing then KeepNew(cands[1..], existing)
    else [cands[0]] + KeepNew(cands[1..], existing)
  }

  /** How many candidates have a url that already exists. */
  function CountExisting(cands: seq<ParsedLink>, existing: set<string>): nat
  {
    if cands == [] then 0
    else (if cands[0].url in existing then 1 else 0) + CountExisting(cands[1..], existing)
  }

  /** `skippedCount` is exactly the number of candidates whose url was
      already listed, so accepted plus skipped is the number detected. */
  lemma {:induction false} SkippedAreTheExisting(cands: seq<ParsedLink>, existing: set<string>)
    ensures |KeepNew(cands, existing)| + CountExisting(cands, existing) == |cands|
  {
    if cands != [] {
      SkippedAreTheExisting(cands[1..], existing);
    }
  }

  /** The filter keeps the candidates' order. */
  lemma {:induction false} KeepNewKeepsOrder(a: seq<ParsedLink>, b: seq<ParsedLink>, existing: set<string>)
    ensures KeepNew(a + b, existing) == KeepNew(a, existing) + KeepNew(b, existing)
  {
    if a == [] {
      assert a + b == b;
    } else {
      assert (a + b)[1..] == a[1..] + b;
      KeepNewKeepsOrder(a[1..], b, existing);
    }
  }

  /** Two candidates of one batch with the same new url are both kept. */
  lemma {:induction false} BatchDuplicatesBothKept(c: ParsedLink, existing: set<string>)
    requires c.url !in existing
    ensures KeepNew([c, c], existing) == [c, c]
  {
    assert [c, c][1..] == [c];
    assert KeepNew([c], existing) == [c] by {
      assert [c][1..] == [];
    }
  }

  datatype Outcome =
    | NoBlocks
    | Added(accepted: seq<ParsedLink>, skipped: nat)
    | AllExisting(skipped: nat)
    | NothingExtracted

  /** What `parseConfig` concludes about a buffer, given the dashboard's
      current entries. */
  function Classify(text: string, links: seq<LinkItem>): Outcome
  {
    var blocks := Blocks(text);
    if |blocks| == 0 then NoBlocks
    else
      var detected := Detect(blocks);
      var accepted := KeepNew(detected, Urls(links));
      var skipped := |detected| - |accepted|;
      if |accepted| > 0 then Added(accepted, skipped)
      else if skipped > 0 then AllExisting(skipped)
      else NothingExtracted
  }

  /** A text that is a single block yielding a candidate: the candidate
      is added unless its url is already listed, in which case it is the
      one skipped. */
  lemma ClassifyOneBlock(text: string, links: seq<LinkItem>)
    requires Blocks(text) == [text] && Extract(text).Some?
    ensures Classify(text, links) ==
              if Extract(text).value.url in Urls(links) then AllExisting(1)
              else Added([Extract(text).value], 0)
  {
    DetectOne(text);
    KeepNewOne(Extract(text).value, Urls(links));
  }

  /** Detection over one block is that block's candidate, if any. */
  lemma DetectOne(b: string)
    ensures Detect([b]) == if Extract(b).Some? then [Extract(b).value] else []
  {
    assert [b][1..] == [];
  }

  /** De-duplication of one candidate keeps it exactly when its url is
      new. */
  lemma KeepNewOne(c: ParsedLink, existing: set<string>)
    ensures KeepNew([c], existing) == if c.url in existing then [] else [c]
  {
    assert [c][1..] == [];
  }

  /** The scan finds no block exactly when the block pattern matches
      nowhere. */
  lemma NoSpansIff(s: string)
    ensures |VhostSpans(s, 0)| == 0 <==> forall k :: VhostMatchAt(s, k).None?
  {
    if |VhostSpans(s, 0)| == 0 {
      SpansExhausted(s, 0);
      assert FirstVhost(s, 0) == None;
    } else {
      var a := VhostSpans(s, 0)[0].start;
      assert VhostMatchAt(s, a).Some?;
    }
  }

  /** The four outcomes, each characterised by the pipeline's stages. */
  lemma ClassifySpec(text: string, links: seq<LinkItem>)
    ensures var o := Classify(text, links);
      && (o.NoBlocks? <==> forall k :: VhostMatchAt(text, k).None?)
      && (o.NothingExtracted? <==> |Blocks(text)| > 0 && Detect(Blocks(text)) == [])
      && (o.Added? ==>
            && o.accepted == KeepNew(Detect(Blocks(text)), Urls(links))
            && |o.accepted| > 0
            && (forall c :: c in o.accepted ==> c.url !in Urls(links))
            && |o.accepted| + o.skipped == |Detect(Blocks(text))|
            && o.skipped == CountExisting(Detect(Blocks(text)), Urls(links)))
      && (o.AllExisting? ==>
            && o.skipped == |Detect(Blocks(text))| > 0
            && forall c :: c in Detect(Blocks(text)) ==> c.url in Urls(links))
  {
    NoSpansIff(text);
    SkippedAreTheExisting(Detect(Blocks(text)), Urls(links));
  }

  datatype MessageType = Success | Error | Info

  // The fixed texts of the messages.
  const SuccessPrefix: string := "Successfully added "
  const SuccessSuffix: string := " new service(s)!"
  const SkippedSuffix: string := " service(s) already existed and were skipped."
  const AllExistPrefix: string := "All "
  const NoBlocksMessage: string := "No VirtualHost blocks found."
  const AllExistSuffix: string := " detected service(s) already exist in the dashboard."
  const NothingExtractedMessage: string :=
    "Found VirtualHosts but could not extract valid ServerName and ProxyPass configurations."
  const ReadErrorMessage: string := "Error reading one or more files."
  const LoadedPrefix: string := "Loaded "
  const LoadedSuffix: string := " file(s). Click 'Parse' to continue."

  function SuccessMessage(added: nat, skipped: nat): string
  {
    SuccessPrefix + NatToString(added) + SuccessSuffix
      + (if skipped > 0 then " " + NatToString(skipped) + SkippedSuffix else "")
  }

  /** The message and its kind that `showMessage` receives for an outcome. */
  function OutcomeMessage(o: Outcome): (string, MessageType)
  {
    match o
    case NoBlocks => (NoBlocksMessage, Error)
    case Added(accepted, skipped) => (SuccessMessage(|accepted|, skipped), Success)
    case AllExisting(skipped) =>
      (AllExistPrefix + NatToString(skipped) + AllExistSuffix, Info)
    case NothingExtracted => (NothingExtractedMessage, Error)
  }

  /** The success message opens with the number added. */
  lemma SuccessMessageCount(added: nat, skipped: nat)
    ensures var m := SuccessMessage(added, skipped);
      var n := NatToString(added);
      && IsAt(m, 0, SuccessPrefix)
      && IsAt(m, |SuccessPrefix|, n)
  {
    var lead := SuccessPrefix;
    var n := NatToString(added);
    var base := lead + n + SuccessSuffix;
    var tail := if skipped > 0 then " " + NatToString(skipped) + SkippedSuffix else "";
    assert SuccessMessage(added, skipped) == base + tail;
    assert IsAt(lead, 0, lead);
    IsAtConcatLeft(lead, n, 0, lead);
    IsAtConcatLeft(lead + n, SuccessSuffix, 0, lead);
    IsAtConcatLeft(base, tail, 0, lead);
    IsAtConcatRight(lead, n, 0, n);
    IsAtConcatLeft(lead + n, SuccessSuffix, |lead|, n);
    IsAtConcatLeft(base, tail, |lead|, n);
  }

  /** The "skipped" sentence ends the message exactly when some candidate
      was skipped. */
  lemma SuccessMessageSkipped(added: nat, skipped: nat)
    ensures EndsWith(SuccessMessage(added, skipped), SkippedSuffix) <==> skipped > 0
  {
    var m := SuccessMessage(added, skipped);
    var base := SuccessPrefix + NatToString(added) + SuccessSuffix;
    if skipped == 0 {
      assert m == base;
      assert m[|m| - 1] == '!';
      assert SkippedSuffix[|SkippedSuffix| - 1] == '.';
    } else {
      var front := base + " " + NatToString(skipped);
      assert m == front + SkippedSuffix;
      IsAtConcatRight(front, SkippedSuffix, 0, SkippedSuffix);
    }
  }

  /** The success message reads back the number added, and it carries the
      "skipped" sentence exactly when some candidate was skipped. */
  lemma SuccessMessageSpec(added: nat, skipped: nat)
    ensures var m := SuccessMessage(added, skipped);
      var n := NatToString(added);
      && IsAt(m, 0, SuccessPrefix)
      && |SuccessPrefix| + |n| <= |m| && DigitsValue(m[|SuccessPrefix|..|SuccessPrefix| + |n|]) == added
      && (EndsWith(m, SkippedSuffix) <==> skipped > 0)
  {
    var m := SuccessMessage(added, skipped);
    var n := NatToString(added);
    SuccessMessageCount(added, skipped);
    IsAtSliceEq(m, |SuccessPrefix|, n);
    NatToStringRoundTrip(added);
    SuccessMessageSkipped(added, skipped);
  }

  // ---------------------------------------------------------------------
  // File loading
  // ---------------------------------------------------------------------

  /** One selected file: its name and the text read, or `None` when the
      read failed. */
  datatype FileInput = FileInput(name: string, content: Option<string>)

  predicate AllRead(files: seq<FileInput>)
  {
    forall i :: 0 <= i < |files| ==> files[i].content.Some?
  }

  /** A file's text between its start and end banners. */
  function Annotate(name: string, content: string): string
  {
    "# --- Start of " + name + " ---\n" + content + "\n# --- End of " + name + " ---"
  }

  function Annotated(files: seq<FileInput>): (r: seq<string>)
    requires AllRead(files)
    ensures |r| == |files|
    ensures forall i :: 0 <= i < |files| ==> r[i] == Annotate(files[i].name, files[i].content.value)
  {
    seq(|files|, i requires 0 <= i < |files| => Annotate(files[i].name, files[i].content.value))
  }

  /** The buffer after loading: the old text, a blank line and the annotated
      files, or the annotated files alone when the buffer was empty. */
  function AppendLoaded(buffer: string, loaded: string): string
  {
    if buffer != "" then buffer + "\n\n" + loaded else loaded
  }

  /** Where the `i`-th piece starts inside `Join(pieces, sep)`. */
  function PieceOffset(pieces: seq<string>, sep: string, i: nat): nat
    requires i < |pieces|
  {
    if i == 0 then 0 else |pieces[0]| + |sep| + PieceOffset(pieces[1..], sep, i - 1)
  }

  /** Every piece appears whole in the joined text, at its offset. */
  lemma {:induction false} JoinHoldsPiece(pieces: seq<string>, sep: string, i: nat)
    requires i < |pieces|
    ensures IsAt(Join(pieces, sep), PieceOffset(pieces, sep, i), pieces[i])
  {
    if |pieces| == 1 {
      assert IsAt(pieces[0], 0, pieces[0]);
    } else {
      var front, rest := pieces[0] + sep, Join(pieces[1..], sep);
      assert Join(pieces, sep) == front + rest;
      if i == 0 {
        IsAtConcatLeft(pieces[0], sep, 0, pieces[0]);
        IsAtConcatLeft(front, rest, 0, pieces[0]);
      } else {
        var k := PieceOffset(pieces[1..], sep, i - 1);
        assert pieces[1..][i - 1] == pieces[i];
        JoinHoldsPiece(pieces[1..], sep, i - 1);
        IsAtConcatRight(front, rest, k, pieces[i]);
        assert PieceOffset(pieces, sep, i) == |front| + k;
      }
    }
  }

  /** A file's text sits right after its start banner. */
  lemma AnnotateHoldsContent(name: string, content: string)
    ensures IsAt(Annotate(name, content), |"# --- Start of " + name + " ---\n"|, content)
  {
    var front := "# --- Start of " + name + " ---\n";
    var back := "\n# --- End of " + name + " ---";
    assert Annotate(name, content) == front + (content + back);
    IsAtConcatLeft(content, back, 0, content);
    IsAtConcatRight(front, content + back, 0, content);
  }

  /** Loading keeps what the buffer held in front. */
  lemma AppendLoadedKeepsBuffer(buffer: string, loaded: string)
    ensures IsAt(AppendLoaded(buffer, loaded), 0, buffer)
  {
    assert IsAt(buffer, 0, buffer);
    if buffer != "" {
      IsAtConcatLeft(buffer, "\n\n", 0, buffer);
      IsAtConcatLeft(buffer + "\n\n", loaded, 0, buffer);
    }
  }

  /** Every annotated file sits in the loaded text at its offset. */
  lemma AppendLoadedHoldsPiece(buffer: string, pieces: seq<string>, i: nat)
    requires i < |pieces|
    ensures var pre := if buffer != "" then buffer + "\n\n" else "";
      IsAt(AppendLoaded(buffer, Join(pieces, "\n\n")), |pre| + PieceOffset(pieces, "\n\n", i), pieces[i])
  {
    var loaded := Join(pieces, "\n\n");
    var pre := if buffer != "" then buffer + "\n\n" else "";
    assert AppendLoaded(buffer, loaded) == pre + loaded;
    JoinHoldsPiece(pieces, "\n\n", i);
    IsAtConcatRight(pre, loaded, PieceOffset(pieces, "\n\n", i), pieces[i]);
  }

  /** Loading keeps what the buffer held in front, and every file's text
      reaches the buffer between its two banners. */
  lemma LoadedBufferHoldsEveryFile(buffer: string, files: seq<FileInput>, i: nat)
    requires AllRead(files) && i < |files|
    ensures var r := AppendLoaded(buffer, Join(Annotated(files), "\n\n"));
      && IsAt(r, 0, buffer)
      && Contains(r, Annotate(files[i].name, files[i].content.value))
      && Contains(r, files[i].content.value)
  {
    var pieces := Annotated(files);
    var r := AppendLoaded(buffer, Join(pieces, "\n\n"));
    var pre := if buffer != "" then buffer + "\n\n" else "";
    var off := |pre| + PieceOffset(pieces, "\n\n", i);
    AppendLoadedKeepsBuffer(buffer, Join(pieces, "\n\n"));
    AppendLoadedHoldsPiece(buffer, pieces, i);
    AnnotateHoldsContent(files[i].name, files[i].content.value);
    var q := |"# --- Start of " + files[i].name + " ---\n"|;
    IsAtTrans(r, off, pieces[i], q, files[i].content.value);
  }

  // ---------------------------------------------------------------------
  // The panel's state
  // ---------------------------------------------------------------------

  /** The component's state: the text area buffer and the last message. */
  class ParserPanel {
    var configText: string
    var message: string
    var messageType: MessageType

    constructor ()
      ensures configText == "" && message == "" && messageType == Info
    {
      configText, message, messageType := "", "", Info;
    }

    /** `onChange` of the text area. */
    method Edit(text: string)
      modifies this`configText
      ensures configText == text
    {
      configText := text;
    }

    /** `handleFileSelect`: nothing happens without files; a failed read of
        any file leaves the buffer as it was; otherwise the annotated files
        are joined by blank lines and appended. */
    method LoadFiles(files: seq<FileInput>)
      modifies this
      ensures |files| == 0 ==> configText == old(configText) && message == old(message)
                                && messageType == old(messageType)
      ensures |files| > 0 && !AllRead(files) ==>
                configText == old(configText)
                && message == ReadErrorMessage && messageType == Error
      ensures |files| > 0 && AllRead(files) ==>
                configText == AppendLoaded(old(configText), Join(Annotated(files), "\n\n"))
                && message == LoadedPrefix + NatToString(|files|) + LoadedSuffix
                && messageType == Info
    {
      if |files| == 0 {
        return;
      }
      if !AllRead(files) {
        message, messageType := ReadErrorMessage, Error;
        return;
      }
      var joined := Join(Annotated(files), "\n\n");
      configText := if configText != "" then configText + "\n\n" + joined else joined;
      message := LoadedPrefix + NatToString(|files|) + LoadedSuffix;
      messageType := Info;
    }

    /** `parseConfig`. The returned list is what `onAddLinks` receives, and
        `None` means it is not called. */
    method Parse(links: seq<LinkItem>) returns (added: Option<seq<ParsedLink>>)
      modifies this
      ensures var o := Classify(old(configText), links);
        && added == (if o.Added? then Some(o.accepted) else None)
        && configText == (if o.Added? then "" else old(configText))
        && (message, messageType) == OutcomeMessage(o)
    {
      match Classify(configText, links)
      case NoBlocks =>
        added := None;
        message, messageType := NoBlocksMessage, Error;
      case Added(accepted, skipped) =>
        added := Some(accepted);
        message, messageType := SuccessMessage(|accepted|, skipped), Success;
        configText := "";
      case AllExisting(skipped) =>
        added := None;
        message, messageType := AllExistPrefix + NatToString(skipped) + AllExistSuffix, Info;
      case NothingExtracted =>
        added := None;
        message, messageType := NothingExtractedMessage, Error;
    }
  }
}
