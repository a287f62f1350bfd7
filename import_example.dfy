/** A worked import: one `<VirtualHost>` block, pasted into the import
    panel of components/ApacheParser.tsx, whose proxy line carries a
    trailing `/` that the target pattern stops before. */
module ImportExample {
  import opened Types
  import opened Text
  import opened ApacheParser

  const SampleTag: string := " *:80>\n "
  const SampleName: string := "ServerName " + "a.local" + "\n "
  const SampleProxy: string := "ProxyPass / " + "http://localhost:3000" + "/\n"
  const SampleBody: string := SampleTag + SampleName + SampleProxy

  /** The sample configuration text, pieced together line by line. */
  function Sample(): string { VhostOpen + SampleBody + VhostClose }

  /** Any body without `<` between the two tags makes exactly one block. */
  lemma OneBlockAround(body: string)
    requires '<' !in body
    ensures var s := VhostOpen + body + VhostClose; Blocks(s) == [s]
  {
    var s := VhostOpen + body + VhostClose;
    IsAtPrefix(VhostOpen, body);
    IsAtPrefix(VhostOpen + body, VhostClose);
    IsAtTrans(s, 0, VhostOpen + body, 0, VhostOpen);
    IsAtConcatRight(VhostOpen + body, VhostClose, 0, VhostClose);
    forall k | 0 < k < |s| - |VhostClose| ensures s[k] != '<' {
      if k >= |VhostOpen| {
        assert s[k] == body[k - |VhostOpen|];
      } else {
        assert s[k] == VhostOpen[k];
      }
    }
    SingleBlock(s);
  }

  /** The sample is exactly one block. */
  lemma SampleIsOneBlock()
    ensures Blocks(Sample()) == [Sample()]
  {
    assert '<' !in SampleTag && '<' !in SampleName && '<' !in SampleProxy;
    OneBlockAround(SampleBody);
  }

  /** The text regrouped around the line that is the body's second piece. */
  lemma RegroupAtSecond(a: string, b: string, x: string, y: string, z: string, d: string, e: string)
    ensures a + (b + (x + y + z) + d) + e == (a + b) + (x + y + (z + d + e))
  {
  }

  /** The text regrouped around the line that is the body's third piece. */
  lemma RegroupAtThird(a: string, b: string, c: string, x: string, y: string, z: string, e: string)
    ensures a + (b + c + (x + y + z)) + e == (a + b + c) + (x + y + (z + e))
  {
  }

  /** A keyword whose first letter does not occur in `pre` matches at no
      position inside `pre`. */
  lemma KeywordAbsentBefore(pre: string, post: string, kw: string)
    requires |kw| > 0 && kw[0] !in pre
    ensures forall k :: 0 <= k < |pre| ==> !IsAt(pre + post, k, kw)
  {
    forall k | 0 <= k < |pre| ensures !IsAt(pre + post, k, kw) {
      assert (pre + post)[k] == pre[k];
    }
  }

  /** Where a directive line and its value sit when the line follows `pre`. */
  lemma ValueAfterLine(pre: string, line: string, v: string, tail: string)
    requires |tail| > 0
    ensures var s := pre + (line + v + tail);
      && IsAt(s, |pre|, line) && IsAt(s, |pre| + |line|, v)
      && |pre| + |line| + |v| < |s| && s[|pre| + |line| + |v|] == tail[0]
  {
    var post := line + v + tail;
    assert post == line + (v + tail);
    IsAtPrefix(line, v + tail);
    IsAtConcatRight(pre, post, 0, line);
    IsAtPrefix(v, tail);
    IsAtConcatRight(line, v + tail, 0, v);
    IsAtConcatRight(pre, post, |line|, v);
    assert (pre + post)[|pre| + |line| + |v|] == (v + tail)[|v|];
  }

  /** A `ServerName name` line read after text without `S`. */
  lemma ServerNameAfter(pre: string, n: string, tail: string)
    requires 'S' !in pre && IsServerNameValue(n) && |tail| > 0 && IsSpace(tail[0])
    ensures FirstDirective(ServerName, pre + ("ServerName " + n + tail)) == Some(n)
  {
    var s := pre + ("ServerName " + n + tail);
    KeywordAbsentBefore(pre, "ServerName " + n + tail, "ServerName");
    ValueAfterLine(pre, "ServerName ", n, tail);
    ServerNameFirst(s, |pre|, n);
  }

  /** The sample's server name has the shape the pattern reads. */
  lemma SampleNameShape()
    ensures IsServerNameValue("a.local")
  {
  }

  /** The sample cut before its server-name line; nothing ahead of it
      holds an `S`. */
  lemma SampleNameSplit()
    ensures 'S' !in VhostOpen + SampleTag
    ensures Sample() == (VhostOpen + SampleTag) + ("ServerName " + "a.local" + ("\n " + SampleProxy + VhostClose))
  {
    assert 'S' !in VhostOpen && 'S' !in SampleTag;
    RegroupAtSecond(VhostOpen, SampleTag, "ServerName ", "a.local", "\n ", SampleProxy, VhostClose);
  }

  /** Its server name is read up to the line break. */
  lemma SampleServerName()
    ensures FirstDirective(ServerName, Sample()) == Some("a.local")
  {
    SampleNameShape();
    SampleNameSplit();
    ServerNameAfter(VhostOpen + SampleTag, "a.local", "\n " + SampleProxy + VhostClose);
  }

  /** A `ProxyPass / target` line whose target is followed by `/`, read
      after text without `P`. */
  lemma ProxyPassAfter(pre: string, target: string, tail: string)
    requires 'P' !in pre && IsProxyTargetValue(target) && |tail| > 0 && tail[0] == '/'
    ensures FirstDirective(ProxyPass, pre + ("ProxyPass / " + target + tail)) == Some(target)
  {
    var s := pre + ("ProxyPass / " + target + tail);
    KeywordAbsentBefore(pre, "ProxyPass / " + target + tail, "ProxyPass");
    ValueAfterLine(pre, "ProxyPass / ", target, tail);
    ProxyPassFirst(s, |pre|, target);
  }

  /** The target written in the sample has the shape the pattern reads. */
  lemma SampleTargetShape()
    ensures IsProxyTargetValue("http://localhost:3000")
  {
    assert IsAt("http://localhost:3000", 0, "http://");
  }

  /** The sample cut before its proxy line; nothing ahead of it holds a
      `P`. */
  lemma SampleProxySplit()
    ensures 'P' !in VhostOpen + SampleTag + SampleName
    ensures Sample() == (VhostOpen + SampleTag + SampleName)
                        + ("ProxyPass / " + "http://localhost:3000" + ("/\n" + VhostClose))
  {
    assert 'P' !in VhostOpen && 'P' !in SampleTag && 'P' !in SampleName;
    RegroupAtThird(VhostOpen, SampleTag, SampleName, "ProxyPass / ", "http://localhost:3000", "/\n", VhostClose);
  }

  /** Its proxy target is read without the trailing `/`. */
  lemma SampleProxyPass()
    ensures FirstDirective(ProxyPass, Sample()) == Some("http://localhost:3000")
  {
    SampleTargetShape();
    SampleProxySplit();
    ProxyPassAfter(VhostOpen + SampleTag + SampleName, "http://localhost:3000", "/\n" + VhostClose);
  }

  /** A single block with both directives yields one candidate, added
      unless its url is already listed. */
  lemma SingleBlockImports(s: string, n: string, target: string, links: seq<LinkItem>)
    requires Blocks(s) == [s]
    requires FirstDirective(ServerName, s) == Some(n) && FirstDirective(ProxyPass, s) == Some(target)
    ensures var c := ParsedLink(n, "http://" + n, "Apache Reverse Proxy to " + target + " (Detected)", None);
      Classify(s, links) == if c.url in Urls(links) then AllExisting(1) else Added([c], 0)
  {
    ClassifyOneBlock(s, links);
  }

  /** Into an empty dashboard the sample adds one service, titled with the
      server name, at that name over http, naming the target without its
      trailing `/`. */
  lemma SampleImports()
    ensures Classify(Sample(), []) ==
              Added([ParsedLink("a.local", "http://" + "a.local",
                                "Apache Reverse Proxy to " + "http://localhost:3000" + " (Detected)", None)], 0)
  {
    SampleIsOneBlock();
    SampleServerName();
    SampleProxyPass();
    SingleBlockImports(Sample(), "a.local", "http://localhost:3000", []);
  }

  /** When the dashboard already lists the sample's url, the one detected
      service is reported as existing and nothing is added. */
  lemma SampleAlreadyListed(links: seq<LinkItem>)
    requires exists i :: 0 <= i < |links| && links[i].url == "http://" + "a.local"
    ensures Classify(Sample(), links) == AllExisting(1)
  {
    SampleIsOneBlock();
    SampleServerName();
    SampleProxyPass();
    SingleBlockImports(Sample(), "a.local", "http://localhost:3000", links);
  }
}
