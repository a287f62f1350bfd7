/** The reverse-proxy form of components/ManualProxyConfig.tsx: six form
    fields, the application-type presets, the Apache `<VirtualHost>` text
    generated from the fields (kept in step with them, as the generation
    effect does), and the single entry "Add to dashboard" emits. */
module ManualProxyConfig {
  import opened Types
  import opened Text
  import ApacheParser

  /** `appType` */
  datatype AppType = Generic | React | NodeJs

  /** The six form fields the generator reads. */
  datatype Settings = Settings(
    serverName: string,
    proxyTarget: string,
    enableSsl: bool,
    sslCertPath: string,
    sslKeyPath: string,
    enableWebSockets: bool)

  /** The preset effect: each application type fixes the target and the
      WebSocket switch and nothing else. */
  function WithPreset(s: Settings, t: AppType): (r: Settings)
    ensures r.serverName == s.serverName && r.enableSsl == s.enableSsl
    ensures r.sslCertPath == s.sslCertPath && r.sslKeyPath == s.sslKeyPath
    ensures t == React ==> r.proxyTarget == "http://localhost:3000" && r.enableWebSockets
    ensures t == NodeJs ==> r.proxyTarget == "http://localhost:8080" && r.enableWebSockets
    ensures t == Generic ==> r.proxyTarget == "http://localhost:8000" && !r.enableWebSockets
  {
    match t
    case React => s.(proxyTarget := "http://localhost:3000", enableWebSockets := true)
    case NodeJs => s.(proxyTarget := "http://localhost:8080", enableWebSockets := true)
    case Generic => s.(proxyTarget := "http://localhost:8000", enableWebSockets := false)
  }

  /** `serverName || 'your-domain.com'` */
  function DisplayName(n: string): (r: string)
    ensures |r| > 0
    ensures n != "" ==> r == n
    ensures n == "" ==> r == "your-domain.com"
  {
    if n == "" then "your-domain.com" else n
  }

  /** `<VirtualHost *:${port}>` and its line break; port 443 with SSL, 80
      without. */
  function OpenTag(ssl: bool): string
  {
    "<VirtualHost *:" + (if ssl then "443" else "80") + ">\n"
  }

  /** The two opening tags written out. */
  lemma OpenTagText()
    ensures OpenTag(true) == "<VirtualHost *:443>\n"
    ensures OpenTag(false) == "<VirtualHost *:80>\n"
  {
  }

  function NameLines(n: string): string
  {
    "    ServerName " + DisplayName(n) + "\n\n"
  }

  function SslLines(cert: string, key: string): string
  {
    "    SSLEngine on\n" + "    SSLCertificateFile \"" + cert + "\"\n"
    + "    SSLCertificateKeyFile \"" + key + "\"\n\n"
  }

  /** The two lines of the proxy block that map `/` to the target: a
      `ProxyPass` line and then a `ProxyPassReverse` line, each pointing at
      the target followed by `/`. */
  function MappingLines(t: string): string
  {
    "    ProxyPass / " + t + "/\n" + "    ProxyPassReverse / " + t + "/\n"
  }

  /** The proxy block: a comment line, then the mapping lines. */
  function ProxyLines(t: string): string
  {
    "    # Basic reverse proxy\n" + MappingLines(t)
  }

  /** `proxyTarget.replace(/^https?:\/\//, '')` */
  function StripScheme(t: string): string
  {
    if IsAt(t, 0, "https://") then t[8..]
    else if IsAt(t, 0, "http://") then t[7..]
    else t
  }

  /** `${wsProtocol}://${...}/`: `wss` exactly when the target starts with
      `https://`. */
  function WsTarget(t: string): string
  {
    (if IsAt(t, 0, "https://") then "wss" else "ws") + "://" + StripScheme(t) + "/"
  }

  /** The WebSocket section; its longer lines are written as several
      literals. */
  function WsLines(t: string): string
  {
    "\n    # WebSocket proxy " + "configuration\n" + "    RewriteEngine On\n"
    + "    RewriteCond " + "%{HTTP:Upgrade} " + "websocket [NC]\n"
    + "    RewriteCond " + "%{HTTP:Connection} " + "upgrade [NC]\n"
    + "    RewriteRule ^/?(.*) \"" + WsTarget(t) + "$1\" [P,L]\n"
  }

  const CloseTag: string := "</VirtualHost>"

  /** The generated text up to the closing tag. */
  function Head(s: Settings): string
  {
    OpenTag(s.enableSsl)
    + NameLines(s.serverName)
    + (if s.enableSsl then SslLines(s.sslCertPath, s.sslKeyPath) else "")
    + ProxyLines(s.proxyTarget)
    + (if s.enableWebSockets then WsLines(s.proxyTarget) else "")
  }

  /** The generated configuration for a set of form fields. */
  function ConfigText(s: Settings): string
  {
    Head(s) + CloseTag
  }

  /** For an `http://` or `https://` target the WebSocket target swaps the
      `http` of the scheme for `ws` and keeps the rest; any other target is
      put after `ws://` whole. */
  lemma WsTargetSwapsScheme(t: string)
    ensures IsAt(t, 0, "https://") || IsAt(t, 0, "http://") ==> WsTarget(t) == "ws" + t[4..] + "/"
    ensures !IsAt(t, 0, "https://") && !IsAt(t, 0, "http://") ==> WsTarget(t) == "ws://" + t + "/"
  {
    if IsAt(t, 0, "https://") {
      assert t[4] == "https://"[4] && t[5] == "https://"[5];
      assert t[6] == "https://"[6] && t[7] == "https://"[7];
      assert t[4..] == "s://" + t[8..];
    } else if IsAt(t, 0, "http://") {
      assert t[4] == "http://"[4] && t[5] == "http://"[5] && t[6] == "http://"[6];
      assert t[4..] == "://" + t[7..];
    }
  }

  /** The generated text before the proxy lines. */
  function Preamble(s: Settings): string
  {
    OpenTag(s.enableSsl) + NameLines(s.serverName)
    + (if s.enableSsl then SslLines(s.sslCertPath, s.sslKeyPath) else "")
  }

  /** Whatever occurs in the preamble and the proxy lines occurs at the
      same place in the whole text. */
  lemma FrontInText(s: Settings, k: nat, q: string)
    requires IsAt(Preamble(s) + ProxyLines(s.proxyTarget), k, q)
    ensures IsAt(ConfigText(s), k, q)
  {
    var c := Preamble(s) + ProxyLines(s.proxyTarget);
    IsAtConcatLeft(c, if s.enableWebSockets then WsLines(s.proxyTarget) else "", k, q);
    IsAtConcatLeft(Head(s), CloseTag, k, q);
  }

  /** Whatever occurs in the preamble occurs at the same place in the
      whole text. */
  lemma PreambleInText(s: Settings, k: nat, q: string)
    requires IsAt(Preamble(s), k, q)
    ensures IsAt(ConfigText(s), k, q)
  {
    IsAtConcatLeft(Preamble(s), ProxyLines(s.proxyTarget), k, q);
    FrontInText(s, k, q);
  }

  /** Appending two pieces one by one appends them together. */
  lemma RegroupLast(a: string, b: string, c: string)
    ensures a + b + c == a + (b + c)
  {
  }

  /** In a text made of `pre`, the proxy block and `rest`, the mapping
      lines follow the block's 26-character comment line. */
  lemma MappingLinesAt(text: string, pre: string, t: string, rest: string)
    requires text == pre + ProxyLines(t) + rest
    ensures IsAt(text, |pre| + 26, MappingLines(t))
  {
    var comment := "    # Basic reverse proxy\n";
    var lines := MappingLines(t);
    assert text == (pre + comment) + (lines + rest);
    assert |comment| == 26;
    IsAtPrefix(lines, rest);
    IsAtConcatRight(pre + comment, lines + rest, 0, lines);
  }

  /** Right after the preamble's end and the comment line come the
      `ProxyPass` and `ProxyPassReverse` lines mapping `/` to the target. */
  lemma ProxyLinesMapRoot(s: Settings)
    ensures IsAt(ConfigText(s), |Preamble(s)| + 26, MappingLines(s.proxyTarget))
  {
    var ws := if s.enableWebSockets then WsLines(s.proxyTarget) else "";
    RegroupLast(Preamble(s) + ProxyLines(s.proxyTarget), ws, CloseTag);
    MappingLinesAt(ConfigText(s), Preamble(s), s.proxyTarget, ws + CloseTag);
  }

  /** The preamble opens with the tag. */
  lemma PreambleStarts(s: Settings)
    ensures IsAt(Preamble(s), 0, OpenTag(s.enableSsl))
  {
    var o := OpenTag(s.enableSsl);
    var a := o + NameLines(s.serverName);
    IsAtPrefix(o, NameLines(s.serverName));
    IsAtPrefix(a, if s.enableSsl then SslLines(s.sslCertPath, s.sslKeyPath) else "");
    IsAtTrans(Preamble(s), 0, a, 0, o);
  }

  /** The text opens with the tag for the SSL port and ends with the
      closing tag. */
  lemma ConfigFrame(s: Settings)
    ensures IsAt(ConfigText(s), 0, OpenTag(s.enableSsl))
    ensures IsAt(ConfigText(s), 0, if s.enableSsl then "<VirtualHost *:443>\n" else "<VirtualHost *:80>\n")
    ensures EndsWith(ConfigText(s), CloseTag)
  {
    OpenTagText();
    PreambleStarts(s);
    PreambleInText(s, 0, OpenTag(s.enableSsl));
    IsAtConcatRight(Head(s), CloseTag, 0, CloseTag);
  }

  /** Where the SSL section starts, if there is one. */
  function SslPos(s: Settings): nat
  {
    |OpenTag(s.enableSsl) + NameLines(s.serverName)|
  }

  lemma SslSectionPresent(s: Settings)
    requires s.enableSsl
    ensures IsAt(ConfigText(s), SslPos(s), "    SSLEngine on\n")
  {
    var line := "    SSLEngine on\n";
    var a := OpenTag(s.enableSsl) + NameLines(s.serverName);
    var sl := SslLines(s.sslCertPath, s.sslKeyPath);
    assert IsAt(sl, 0, line);
    IsAtConcatRight(a, sl, 0, line);
    PreambleInText(s, |a|, line);
  }

  lemma SslSectionAbsent(s: Settings)
    requires !s.enableSsl
    ensures SslPos(s) + 4 < |ConfigText(s)| && ConfigText(s)[SslPos(s) + 4] == '#'
  {
    var pl := ProxyLines(s.proxyTarget);
    ProxyLinesAt(s);
    assert |Preamble(s)| == SslPos(s);
    assert pl[4] == "    # Basic reverse proxy\n"[4];
    assert ConfigText(s)[|Preamble(s)| + 4] == pl[4];
  }

  /** The lines after the server-name lines are the SSL section (the engine
      switch and the quoted certificate and key paths) exactly when SSL is
      enabled. */
  lemma SslSectionIff(s: Settings)
    ensures IsAt(ConfigText(s), SslPos(s), "    SSLEngine on\n") <==> s.enableSsl
    ensures IsAt(ConfigText(s), SslPos(s), SslLines(s.sslCertPath, s.sslKeyPath)) <==> s.enableSsl
  {
    var sl := SslLines(s.sslCertPath, s.sslKeyPath);
    if s.enableSsl {
      SslSectionPresent(s);
      var a := OpenTag(s.enableSsl) + NameLines(s.serverName);
      IsAtConcatRight(a, sl, 0, sl);
      PreambleInText(s, |a|, sl);
    } else {
      SslSectionAbsent(s);
      assert "    SSLEngine on\n"[4] == 'S';
      assert sl[4] == 'S';
    }
  }

  /** The WebSocket section ends with the rewrite rule's flags. */
  lemma WsLinesEnd(t: string)
    ensures EndsWith(WsLines(t), "[P,L]\n")
  {
  }

  /** The text ends with the WebSocket rewrite rule exactly when WebSockets
      are enabled. */
  lemma WsSectionIff(s: Settings)
    ensures EndsWith(ConfigText(s), "[P,L]\n" + CloseTag) <==> s.enableWebSockets
    ensures EndsWith(ConfigText(s), WsLines(s.proxyTarget) + CloseTag) <==> s.enableWebSockets
  {
    var t := ConfigText(s);
    var suffix := "[P,L]\n" + CloseTag;
    var ws := WsLines(s.proxyTarget);
    WsLinesEnd(s.proxyTarget);
    if s.enableWebSockets {
      var h := Head(s);
      var x := Preamble(s) + ProxyLines(s.proxyTarget);
      assert h == x + ws;
      EndsWithConcat(x, ws, "[P,L]\n");
      EndsWithAppend(h, "[P,L]\n", CloseTag);
      IsAtPrefix(ws, "");
      assert ws + "" == ws;
      EndsWithConcat(x, ws, ws);
      EndsWithAppend(h, ws, CloseTag);
    } else {
      assert |t| >= |suffix|;
      assert t[|t| - 16] == '/';
      assert suffix[4] == ']';
      if EndsWith(t, ws + CloseTag) {
        EndsWithShorter(t, ws, CloseTag, "[P,L]\n");
        assert false;
      }
    }
  }


  /** What "Add to dashboard" emits
      (`Omit<LinkItem, 'id' | 'type'>`: no id, no type, no category). */
  datatype ManualEntry = ManualEntry(
    title: string,
    url: string,
    description: string,
    icon: Option<string>,
    enabled: bool,
    proxyConfig: ProxyConfig)

  /** `handleAddToDashboard`: nothing while the server name or the target
      is empty; otherwise one enabled entry for the server name, over
      https exactly when SSL is on, carrying a copy of the form's proxy
      settings. */
  function EntryFor(s: Settings): (r: Option<ManualEntry>)
    ensures r.None? <==> s.serverName == "" || s.proxyTarget == ""
    ensures r.Some? ==>
              && r.value.title == s.serverName
              && r.value.url == (if s.enableSsl then "https://" else "http://") + s.serverName
              && r.value.description == "Reverse proxy to " + s.proxyTarget
              && r.value.icon == None && r.value.enabled
              && r.value.proxyConfig == ProxyConfig(s.proxyTarget, s.enableSsl, s.sslCertPath,
                                                     s.sslKeyPath, s.enableWebSockets)
  {
    if s.serverName == "" || s.proxyTarget == "" then None
    else
      Some(ManualEntry(
        s.serverName,
        (if s.enableSsl then "https" else "http") + "://" + s.serverName,
        "Reverse proxy to " + s.proxyTarget,
        None,
        true,
        ProxyConfig(s.proxyTarget, s.enableSsl, s.sslCertPath, s.sslKeyPath, s.enableWebSockets)))
  }

  /** Appending the SSL lines one at a time appends `SslLines`. */
  lemma SslLinesAppend(c: string, cert: string, key: string)
    ensures c + "    SSLEngine on\n" + "    SSLCertificateFile \"" + cert + "\"\n"
              + "    SSLCertificateKeyFile \"" + key + "\"\n\n" == c + SslLines(cert, key)
  {
  }

  /** Appending the proxy lines one at a time appends `ProxyLines`. */
  lemma ProxyLinesAppend(c: string, t: string)
    ensures c + "    # Basic reverse proxy\n" + "    ProxyPass / " + t + "/\n"
              + "    ProxyPassReverse / " + t + "/\n" == c + ProxyLines(t)
  {
  }

  /** Appending the WebSocket lines one at a time appends `WsLines`. */
  lemma WsLinesAppend(c: string, t: string)
    ensures c + "\n    # WebSocket proxy " + "configuration\n" + "    RewriteEngine On\n"
              + "    RewriteCond " + "%{HTTP:Upgrade} " + "websocket [NC]\n"
              + "    RewriteCond " + "%{HTTP:Connection} " + "upgrade [NC]\n"
              + "    RewriteRule ^/?(.*) \"" + WsTarget(t) + "$1\" [P,L]\n" == c + WsLines(t)
  {
  }

  /** The body of the generation effect: the text is built line by line. */
  method Render(s: Settings) returns (config: string)
    ensures config == ConfigText(s)
  {
    var port := if s.enableSsl then "443" else "80";
    config := "<VirtualHost *:" + port + ">\n";
    config := config + "    ServerName " + DisplayName(s.serverName) + "\n\n";
    ghost var c := OpenTag(s.enableSsl) + NameLines(s.serverName);
    assert config == c;
    if s.enableSsl {
      config := config + "    SSLEngine on\n";
      config := config + "    SSLCertificateFile \"" + s.sslCertPath + "\"\n";
      config := config + "    SSLCertificateKeyFile \"" + s.sslKeyPath + "\"\n\n";
      SslLinesAppend(c, s.sslCertPath, s.sslKeyPath);
    }
    c := c + (if s.enableSsl then SslLines(s.sslCertPath, s.sslKeyPath) else "");
    assert config == c;
    config := config + "    # Basic reverse proxy\n";
    config := config + "    ProxyPass / " + s.proxyTarget + "/\n";
    config := config + "    ProxyPassReverse / " + s.proxyTarget + "/\n";
    ProxyLinesAppend(c, s.proxyTarget);
    c := c + ProxyLines(s.proxyTarget);
    if s.enableWebSockets {
      config := config + "\n    # WebSocket proxy " + "configuration\n";
      config := config + "    RewriteEngine On\n";
      config := config + "    RewriteCond " + "%{HTTP:Upgrade} " + "websocket [NC]\n";
      config := config + "    RewriteCond " + "%{HTTP:Connection} " + "upgrade [NC]\n";
      var wsProtocol := if IsAt(s.proxyTarget, 0, "https://") then "wss" else "ws";
      var wsTarget := wsProtocol + "://" + StripScheme(s.proxyTarget) + "/";
      config := config + "    RewriteRule ^/?(.*) \"" + wsTarget + "$1\" [P,L]\n";
      WsLinesAppend(c, s.proxyTarget);
    }
    c := c + (if s.enableWebSockets then WsLines(s.proxyTarget) else "");
    assert config == c;
    config := config + "</VirtualHost>";
  }

  // ---------------------------------------------------------------------
  // Reading a generated configuration back with the Apache import
  // ---------------------------------------------------------------------

  /** The proxy lines follow the preamble. */
  lemma ProxyLinesAt(s: Settings)
    ensures IsAt(ConfigText(s), |Preamble(s)|, ProxyLines(s.proxyTarget))
  {
    var pl := ProxyLines(s.proxyTarget);
    IsAtConcatRight(Preamble(s), pl, 0, pl);
    FrontInText(s, |Preamble(s)|, pl);
  }

  lemma TagNameLetters()
    ensures 'S' !in "VirtualHost *:" && 'P' !in "VirtualHost *:" && '<' !in "VirtualHost *:"
  {
  }

  /** The opening tag holds no `S`, no `P`, and `<` only at its start. */
  lemma OpenTagChars(ssl: bool)
    ensures forall k :: 0 <= k < |OpenTag(ssl)| ==> OpenTag(ssl)[k] != 'S' && OpenTag(ssl)[k] != 'P'
    ensures forall k :: 0 < k < |OpenTag(ssl)| ==> OpenTag(ssl)[k] != '<'
  {
    var o := OpenTag(ssl);
    var lead := "<VirtualHost *:";
    var rest := (if ssl then "443" else "80") + ">\n";
    assert o == lead + rest;
    TagNameLetters();
    forall k | 0 <= k < |o| ensures o[k] != 'S' && o[k] != 'P' && (k > 0 ==> o[k] != '<') {
      if k == 0 {
      } else if k < |lead| {
        assert o[k] == lead[k] == "VirtualHost *:"[k - 1];
      } else {
        assert o[k] == rest[k - |lead|];
        assert o[k] in rest;
      }
    }
  }

  /** The server-name lines: four spaces, the keyword and a space, the
      displayed name, a line break. */
  lemma NameLinesShape(n: string)
    ensures forall k :: 0 <= k < 4 ==> NameLines(n)[k] == ' '
    ensures IsAt(NameLines(n), 4, "ServerName ")
    ensures IsAt(NameLines(n), 15, DisplayName(n))
    ensures 15 + |DisplayName(n)| < |NameLines(n)| && NameLines(n)[15 + |DisplayName(n)|] == '\n'
  {
    var lead := "    ServerName ";
    var dn := DisplayName(n);
    IsAtConcatRight(lead, dn, 0, dn);
    IsAtConcatLeft(lead + dn, "\n\n", 15, dn);
  }

  /** The placeholder name is a valid server name. */
  lemma PlaceholderIsServerName()
    ensures ApacheParser.IsServerNameValue("your-domain.com")
  {
    var v := "your-domain.com";
    forall k | 0 <= k < |v| ensures !IsSpace(v[k]) && v[k] != '#' {
      assert v[k] in v;
    }
  }

  lemma SliceKeepsAbsent(t: string, i: nat, c: char)
    requires i <= |t| && c !in t
    ensures c !in t[i..]
  {
    assert forall j :: 0 <= j < |t| - i ==> t[i..][j] == t[i + j];
  }

  lemma NoAngleNameLines(n: string)
    requires '<' !in n
    ensures '<' !in NameLines(n)
  {
  }

  lemma NoAngleSslLines(cert: string, key: string)
    requires '<' !in cert && '<' !in key
    ensures '<' !in SslLines(cert, key)
  {
  }

  lemma NoAngleProxyLines(t: string)
    requires '<' !in t
    ensures '<' !in ProxyLines(t)
  {
  }

  lemma NoAngleStripScheme(t: string)
    requires '<' !in t
    ensures '<' !in StripScheme(t)
  {
    if IsAt(t, 0, "https://") {
      SliceKeepsAbsent(t, 8, '<');
    } else if IsAt(t, 0, "http://") {
      SliceKeepsAbsent(t, 7, '<');
    }
  }

  lemma NoAngleWsTarget(t: string)
    requires '<' !in t
    ensures '<' !in WsTarget(t)
  {
    NoAngleStripScheme(t);
  }

  // The fixed pieces of the WebSocket section hold no `<`.

  lemma WsCommentNoAngle()
    ensures '<' !in "\n    # WebSocket proxy " && '<' !in "configuration\n"
  {
  }

  lemma WsEngineNoAngle()
    ensures '<' !in "    RewriteEngine On\n" && '<' !in "    RewriteCond "
  {
  }

  lemma WsUpgradeNoAngle()
    ensures '<' !in "%{HTTP:Upgrade} " && '<' !in "websocket [NC]\n"
  {
  }

  lemma WsConnectionNoAngle()
    ensures '<' !in "%{HTTP:Connection} " && '<' !in "upgrade [NC]\n"
  {
  }

  lemma WsRuleNoAngle()
    ensures '<' !in "    RewriteRule ^/?(.*) \"" && '<' !in "$1\" [P,L]\n"
  {
  }

  lemma NoAngleWsLines(t: string)
    requires '<' !in WsTarget(t)
    ensures '<' !in WsLines(t)
  {
    WsCommentNoAngle();
    WsEngineNoAngle();
    WsUpgradeNoAngle();
    WsConnectionNoAngle();
    WsRuleNoAngle();
  }

  /** Appending a piece without `<` keeps `<` out of all but the first
      position. */
  lemma AngleOnlyAtStart(x: string, y: string)
    requires forall k :: 0 < k < |x| ==> x[k] != '<'
    requires '<' !in y
    ensures forall k :: 0 < k < |x + y| ==> (x + y)[k] != '<'
  {
    forall k | 0 < k < |x + y| ensures (x + y)[k] != '<' {
      if k >= |x| {
        assert (x + y)[k] == y[k - |x|];
      }
    }
  }

  /** No `<` in the generated text except in the two tags. */
  lemma NoAngleInBody(s: Settings)
    requires '<' !in s.serverName && '<' !in s.proxyTarget
    requires s.enableSsl ==> '<' !in s.sslCertPath && '<' !in s.sslKeyPath
    ensures forall k :: 0 < k < |Head(s)| ==> Head(s)[k] != '<'
  {
    var o := OpenTag(s.enableSsl);
    var t := s.proxyTarget;
    var a := o + NameLines(s.serverName);
    var sl := if s.enableSsl then SslLines(s.sslCertPath, s.sslKeyPath) else "";
    var b := a + sl;
    var c := b + ProxyLines(t);
    var w := if s.enableWebSockets then WsLines(t) else "";
    OpenTagChars(s.enableSsl);
    NoAngleNameLines(s.serverName);
    AngleOnlyAtStart(o, NameLines(s.serverName));
    if s.enableSsl {
      NoAngleSslLines(s.sslCertPath, s.sslKeyPath);
    }
    AngleOnlyAtStart(a, sl);
    NoAngleProxyLines(t);
    AngleOnlyAtStart(b, ProxyLines(t));
    if s.enableWebSockets {
      NoAngleWsTarget(t);
      NoAngleWsLines(t);
    }
    AngleOnlyAtStart(c, w);
    assert Head(s) == c + w;
  }

  /** The generated text is exactly one `<VirtualHost>` block. */
  lemma ConfigIsOneBlock(s: Settings)
    requires '<' !in s.serverName && '<' !in s.proxyTarget
    requires s.enableSsl ==> '<' !in s.sslCertPath && '<' !in s.sslKeyPath
    ensures ApacheParser.Blocks(ConfigText(s)) == [ConfigText(s)]
  {
    var text := ConfigText(s);
    ConfigFrame(s);
    OpenTagText();
    assert IsAt(OpenTag(s.enableSsl), 0, ApacheParser.VhostOpen);
    IsAtTrans(text, 0, OpenTag(s.enableSsl), 0, ApacheParser.VhostOpen);
    NoAngleInBody(s);
    assert forall k :: 0 < k < |text| - |CloseTag| ==> text[k] == Head(s)[k];
    ApacheParser.SingleBlock(text);
  }

  /** In any text that opens with a tag free of `S` and then the
      server-name lines, the server-name pattern reads the displayed name. */
  lemma NameDirectiveAfter(text: string, o: string, n: string)
    requires IsAt(text, 0, o + NameLines(n))
    requires forall k :: 0 <= k < |o| ==> o[k] != 'S'
    requires n == "" || ApacheParser.IsServerNameValue(n)
    ensures ApacheParser.FirstDirective(ApacheParser.ServerName, text) == Some(DisplayName(n))
  {
    var nl := NameLines(n);
    var dn := DisplayName(n);
    var p := |o|;
    IsAtConcatRight(o, nl, 0, nl);
    IsAtTrans(text, 0, o + nl, p, nl);
    NameLinesShape(n);
    IsAtTrans(text, p, nl, 4, "ServerName ");
    IsAtTrans(text, p, nl, 15, dn);
    assert text[p + (15 + |dn|)] == nl[15 + |dn|];
    if n == "" {
      PlaceholderIsServerName();
    }
    NoServerNameInFront(text, o, n);
    ApacheParser.ServerNameFirst(text, p + 4, dn);
  }

  /** Before the server-name lines' keyword, a text that opens with a tag
      free of `S` holds no `ServerName`. */
  lemma NoServerNameInFront(text: string, o: string, n: string)
    requires IsAt(text, 0, o + NameLines(n))
    requires forall k :: 0 <= k < |o| ==> o[k] != 'S'
    ensures forall k :: 0 <= k < |o| + 4 ==> !IsAt(text, k, "ServerName")
  {
    var nl := NameLines(n);
    var p := |o|;
    NameLinesShape(n);
    assert "ServerName"[0] == 'S';
    forall k | 0 <= k < p + 4 ensures !IsAt(text, k, "ServerName") {
      if k < p {
        assert text[0 + k] == (o + nl)[k] == o[k];
      } else {
        assert text[0 + k] == (o + nl)[p + (k - p)] == nl[k - p];
      }
    }
  }

  /** The server-name directive is the first one in the generated text and
      holds the displayed name. */
  lemma ConfigServerName(s: Settings)
    requires s.serverName == "" || ApacheParser.IsServerNameValue(s.serverName)
    ensures ApacheParser.FirstDirective(ApacheParser.ServerName, ConfigText(s))
            == Some(DisplayName(s.serverName))
  {
    var o := OpenTag(s.enableSsl);
    var a := o + NameLines(s.serverName);
    OpenTagChars(s.enableSsl);
    IsAtPrefix(a, if s.enableSsl then SslLines(s.sslCertPath, s.sslKeyPath) else "");
    PreambleInText(s, 0, a);
    NameDirectiveAfter(ConfigText(s), o, s.serverName);
  }

  /** The proxy lines: a comment line and four spaces, then the keyword,
      the `/` path, the target and its trailing `/`. */
  lemma ProxyLinesShape(t: string)
    ensures forall j :: 0 <= j < 30 ==> ProxyLines(t)[j] != 'P'
    ensures IsAt(ProxyLines(t), 30, "ProxyPass / ")
    ensures IsAt(ProxyLines(t), 42, t)
    ensures 42 + |t| < |ProxyLines(t)| && ProxyLines(t)[42 + |t|] == '/'
  {
    var l12 := "    # Basic reverse proxy\n" + "    ProxyPass / ";
    var front := l12 + t;
    var back := "/\n" + "    ProxyPassReverse / " + t + "/\n";
    var pl := ProxyLines(t);
    assert pl == front + back;
    ProxyHeadShape();
    forall j | 0 <= j < 30 ensures pl[j] != 'P' {
      assert pl[j] == l12[j];
    }
    IsAtConcatLeft(l12, t, 30, "ProxyPass / ");
    IsAtConcatLeft(front, back, 30, "ProxyPass / ");
    IsAtConcatRight(l12, t, 0, t);
    IsAtConcatLeft(front, back, 42, t);
    assert pl[42 + |t|] == back[0];
  }

  /** The fixed opening of the proxy lines: 42 characters, no `P` in the
      first 30, then the keyword, a space, the `/` path and a space. */
  lemma ProxyHeadShape()
    ensures var h := "    # Basic reverse proxy\n" + "    ProxyPass / ";
      && |h| == 42
      && (forall j :: 0 <= j < 30 ==> h[j] != 'P')
      && IsAt(h, 30, "ProxyPass / ")
  {
    var l1 := "    # Basic reverse proxy\n";
    var l2 := "    ProxyPass / ";
    var h := l1 + l2;
    assert 'P' !in l1;
    forall j | 0 <= j < 30 ensures h[j] != 'P' {
      if j < 26 {
        assert h[j] == l1[j];
      } else {
        assert h[26 + (j - 26)] == l2[j - 26];
        assert l2[0] == ' ' && l2[1] == ' ' && l2[2] == ' ' && l2[3] == ' ';
      }
    }
    assert IsAt(l2, 4, "ProxyPass / ");
    IsAtConcatRight(l1, l2, 4, "ProxyPass / ");
  }

  /** The keyword `ProxyPass` written in none of the copied fields is
      nowhere in the server-name lines. */
  lemma NameLinesNoProxyPass(n: string)
    requires !Contains(n, "ProxyPass")
    ensures !Contains(NameLines(n), "ProxyPass")
  {
    var pp := "ProxyPass";
    var lead := "    ServerName ";
    var dn := DisplayName(n);
    assert pp[0] == 'P' && ' ' !in pp && '\n' !in pp;
    assert 'P' !in lead;
    AbsentCharNotContained(lead, pp, 0);
    if n == "" {
      assert 'P' !in dn;
      AbsentCharNotContained(dn, pp, 0);
    }
    NotContainedJoin(lead, dn, pp);
    AbsentCharNotContained("\n\n", pp, 0);
    NotContainedJoin(lead + dn, "\n\n", pp);
  }

  /** Nor in the SSL lines. */
  lemma SslLinesNoProxyPass(cert: string, key: string)
    requires !Contains(cert, "ProxyPass") && !Contains(key, "ProxyPass")
    ensures !Contains(SslLines(cert, key), "ProxyPass")
  {
    var pp := "ProxyPass";
    var l12 := "    SSLEngine on\n" + "    SSLCertificateFile \"";
    var l3 := "\"\n";
    var l4 := "    SSLCertificateKeyFile \"";
    var l5 := "\"\n\n";
    assert pp[0] == 'P' && '"' !in pp;
    assert 'P' !in l12 && 'P' !in l3 && 'P' !in l4 && 'P' !in l5;
    AbsentCharNotContained(l12, pp, 0);
    AbsentCharNotContained(l3, pp, 0);
    AbsentCharNotContained(l4, pp, 0);
    AbsentCharNotContained(l5, pp, 0);
    NotContainedJoin(l12, cert, pp);
    NotContainedJoin(l12 + cert, l3, pp);
    NotContainedJoin(l12 + cert + l3, l4, pp);
    NotContainedJoin(l12 + cert + l3 + l4, key, pp);
    NotContainedJoin(l12 + cert + l3 + l4 + key, l5, pp);
    assert SslLines(cert, key) == l12 + cert + l3 + l4 + key + l5;
  }

  /** Nor anywhere before the proxy lines. */
  lemma PreambleNoProxyPass(s: Settings)
    requires !Contains(s.serverName, "ProxyPass")
    requires s.enableSsl ==> !Contains(s.sslCertPath, "ProxyPass") && !Contains(s.sslKeyPath, "ProxyPass")
    ensures !Contains(Preamble(s), "ProxyPass")
    ensures |Preamble(s)| > 0 && Preamble(s)[|Preamble(s)| - 1] == '\n'
  {
    var pp := "ProxyPass";
    var o := OpenTag(s.enableSsl);
    var nl := NameLines(s.serverName);
    var sl := if s.enableSsl then SslLines(s.sslCertPath, s.sslKeyPath) else "";
    OpenTagChars(s.enableSsl);
    assert pp[0] == 'P' && '\n' !in pp;
    assert 'P' !in o;
    AbsentCharNotContained(o, pp, 0);
    NameLinesNoProxyPass(s.serverName);
    assert nl[|nl| - 1] == '\n';
    NotContainedJoin(o, nl, pp);
    if s.enableSsl {
      SslLinesNoProxyPass(s.sslCertPath, s.sslKeyPath);
      NotContainedJoin(o + nl, sl, pp);
      assert sl[|sl| - 1] == '\n';
    } else {
      assert o + nl + sl == o + nl;
    }
    assert Preamble(s) == o + nl + sl;
  }

  /** Where the proxy directive sits in a text that opens with a preamble
      and then the proxy lines. */
  lemma ProxyLineInText(text: string, pre: string, t: string)
    requires IsAt(text, 0, pre + ProxyLines(t))
    ensures IsAt(text, |pre| + 30, "ProxyPass / ") && IsAt(text, |pre| + 42, t)
    ensures |pre| + 42 + |t| < |text| && text[|pre| + (42 + |t|)] == '/'
  {
    var pl := ProxyLines(t);
    ProxyLinesShape(t);
    IsAtAfter(text, pre, pl, 30, "ProxyPass / ");
    IsAtAfter(text, pre, pl, 42, t);
    assert text[0 + (|pre| + (42 + |t|))] == (pre + pl)[|pre| + (42 + |t|)];
  }

  /** In such a text no `ProxyPass` keyword starts before that directive
      when the preamble is line-ended and holds none. */
  lemma NoProxyPassInFront(text: string, pre: string, t: string)
    requires IsAt(text, 0, pre + ProxyLines(t))
    requires !Contains(pre, "ProxyPass") && |pre| > 0 && pre[|pre| - 1] == '\n'
    ensures forall k :: 0 <= k < |pre| + 30 ==> !IsAt(text, k, "ProxyPass")
  {
    var pl := ProxyLines(t);
    var c := pre + pl;
    var p := |pre|;
    ProxyLinesShape(t);
    assert '\n' !in "ProxyPass";
    forall k | 0 <= k < p + 30 ensures !IsAt(text, k, "ProxyPass") {
      IsAtInside(text, 0, c, k, "ProxyPass");
      if k < p {
        NoOccurrenceBefore(pre, pl, "ProxyPass", k);
      } else {
        assert c[p + (k - p)] == pl[k - p];
        assert "ProxyPass"[0] == 'P';
      }
    }
  }

  /** In any text that opens with a line-ended preamble free of
      `ProxyPass` and then the proxy lines, the proxy pattern reads the
      target. */
  lemma ProxyDirectiveAfter(text: string, pre: string, t: string)
    requires IsAt(text, 0, pre + ProxyLines(t))
    requires !Contains(pre, "ProxyPass") && |pre| > 0 && pre[|pre| - 1] == '\n'
    requires ApacheParser.IsProxyTargetValue(t)
    ensures ApacheParser.FirstDirective(ApacheParser.ProxyPass, text) == Some(t)
  {
    var q := |pre| + 30;
    ProxyLineInText(text, pre, t);
    NoProxyPassInFront(text, pre, t);
    assert q + 12 == |pre| + 42 && q + 12 + |t| == |pre| + (42 + |t|);
    ApacheParser.ProxyPassFirst(text, q, t);
  }

  /** The proxy directive is the first one in the generated text and holds
      the target. */
  lemma ConfigProxyPass(s: Settings)
    requires ApacheParser.IsProxyTargetValue(s.proxyTarget)
    requires !Contains(s.serverName, "ProxyPass")
    requires s.enableSsl ==> !Contains(s.sslCertPath, "ProxyPass") && !Contains(s.sslKeyPath, "ProxyPass")
    ensures ApacheParser.FirstDirective(ApacheParser.ProxyPass, ConfigText(s)) == Some(s.proxyTarget)
  {
    var c := Preamble(s) + ProxyLines(s.proxyTarget);
    IsAtPrefix(c, "");
    assert c + "" == c;
    FrontInText(s, 0, c);
    PreambleNoProxyPass(s);
    ProxyDirectiveAfter(ConfigText(s), Preamble(s), s.proxyTarget);
  }

  /** Field values the import patterns read back unchanged: a server name
      that is empty or free of spaces and `#`, an `http(s)://host` target,
      no `<` in what is copied into the text, and no `ProxyPass` keyword
      ahead of the proxy line. */
  ghost predicate Importable(s: Settings)
  {
    && (s.serverName == "" || ApacheParser.IsServerNameValue(s.serverName))
    && ApacheParser.IsProxyTargetValue(s.proxyTarget)
    && '<' !in s.serverName && '<' !in s.proxyTarget
    && !Contains(s.serverName, "ProxyPass")
    && (s.enableSsl ==>
          && '<' !in s.sslCertPath && '<' !in s.sslKeyPath
          && !Contains(s.sslCertPath, "ProxyPass") && !Contains(s.sslKeyPath, "ProxyPass"))
  }

  /** The candidate the import reads from a generated configuration. */
  function ImportedCandidate(s: Settings): ApacheParser.ParsedLink
  {
    ApacheParser.ParsedLink(DisplayName(s.serverName), "http://" + DisplayName(s.serverName),
                            "Apache Reverse Proxy to " + s.proxyTarget + " (Detected)", None)
  }

  /** The candidate read from a text whose first directives are known. */
  lemma ExtractOf(text: string, n: string, t: string)
    requires ApacheParser.FirstDirective(ApacheParser.ServerName, text) == Some(n)
    requires ApacheParser.FirstDirective(ApacheParser.ProxyPass, text) == Some(t)
    ensures ApacheParser.Extract(text) ==
              Some(ApacheParser.ParsedLink(n, "http://" + n, "Apache Reverse Proxy to " + t + " (Detected)", None))
  {
  }

  /** Pasting a generated configuration into the Apache import yields one
      block and one candidate, titled with the displayed server name and
      naming the target; it is added unless its url is already listed. */
  lemma GeneratedConfigImports(s: Settings, links: seq<LinkItem>)
    requires Importable(s)
    ensures ApacheParser.Blocks(ConfigText(s)) == [ConfigText(s)]
    ensures ApacheParser.Extract(ConfigText(s)) == Some(ImportedCandidate(s))
    ensures ApacheParser.Classify(ConfigText(s), links) ==
              if ImportedCandidate(s).url in Urls(links) then ApacheParser.AllExisting(1)
              else ApacheParser.Added([ImportedCandidate(s)], 0)
  {
    ConfigIsOneBlock(s);
    ConfigServerName(s);
    ConfigProxyPass(s);
    ExtractOf(ConfigText(s), DisplayName(s.serverName), s.proxyTarget);
    ApacheParser.ClassifyOneBlock(ConfigText(s), links);
  }

  /** An entry added by hand and the entry the import reads back from the
      same fields share their title, but their urls agree only without
      SSL: the import always writes `http://`, so a hand-added SSL entry is
      not recognised as already listed. */
  lemma ManualAndImportedEntries(s: Settings)
    requires Importable(s) && s.serverName != "" && s.proxyTarget != ""
    ensures EntryFor(s).Some?
    ensures EntryFor(s).value.title == ImportedCandidate(s).title
    ensures EntryFor(s).value.url == ImportedCandidate(s).url <==> !s.enableSsl
  {
    if s.enableSsl {
      assert EntryFor(s).value.url[4] == 's' != ImportedCandidate(s).url[4];
    }
  }

  /** The state of the form. */
  class ProxyForm {
    var serverName: string
    var proxyTarget: string
    var enableSsl: bool
    var sslCertPath: string
    var sslKeyPath: string
    var enableWebSockets: bool
    var appType: AppType
    var generatedConfig: string

    function Fields(): Settings
      reads this
    {
      Settings(serverName, proxyTarget, enableSsl, sslCertPath, sslKeyPath, enableWebSockets)
    }

    /** The shown configuration is the one generated from the fields. */
    ghost predicate Valid()
      reads this
    {
      generatedConfig == ConfigText(Fields())
    }

    /** The `useState` defaults, then the preset effect for `generic` and
        the generation effect, as on mount. */
    constructor ()
      ensures Fields() == Settings("", "http://localhost:8000", false,
                                   "/etc/ssl/certs/your_domain.crt", "/etc/ssl/private/your_domain.key", false)
      ensures appType == Generic
      ensures Valid()
    {
      serverName := "";
      proxyTarget := "";
      enableSsl := false;
      sslCertPath := "/etc/ssl/certs/your_domain.crt";
      sslKeyPath := "/etc/ssl/private/your_domain.key";
      enableWebSockets := false;
      appType := Generic;
      generatedConfig := "";
      new;
      ApplyPreset();
      assert Fields() == Settings("", "http://localhost:8000", false,
                                  "/etc/ssl/certs/your_domain.crt", "/etc/ssl/private/your_domain.key", false);
      Generate();
    }

    /** The body of the preset effect. */
    method ApplyPreset()
      modifies this`proxyTarget, this`enableWebSockets
      ensures Fields() == WithPreset(old(Fields()), appType)
    {
      match appType
      case React =>
        proxyTarget := "http://localhost:3000";
        enableWebSockets := true;
      case NodeJs =>
        proxyTarget := "http://localhost:8080";
        enableWebSockets := true;
      case Generic =>
        proxyTarget := "http://localhost:8000";
        enableWebSockets := false;
    }

    /** The generation effect. */
    method Generate()
      modifies this`generatedConfig
      ensures Fields() == old(Fields()) && appType == old(appType)
      ensures Valid()
    {
      generatedConfig := Render(Fields());
    }

    /** Choosing an application type. The preset effect runs only when the
        type changes; the text is regenerated. */
    method SelectAppType(t: AppType)
      modifies this
      ensures appType == t
      ensures Fields() == if t == old(appType) then old(Fields()) else WithPreset(old(Fields()), t)
      ensures Valid()
    {
      var changed := t != appType;
      appType := t;
      if changed {
        ApplyPreset();
      }
      assert Fields() == if t == old(appType) then old(Fields()) else WithPreset(old(Fields()), t);
      Generate();
    }

    /** Typing into a field or flipping a switch; the text is regenerated. */
    method SetFields(s: Settings)
      modifies this
      ensures Fields() == s && appType == old(appType)
      ensures Valid()
    {
      serverName := s.serverName;
      proxyTarget := s.proxyTarget;
      enableSsl := s.enableSsl;
      sslCertPath := s.sslCertPath;
      sslKeyPath := s.sslKeyPath;
      enableWebSockets := s.enableWebSockets;
      assert Fields() == s;
      Generate();
    }

    /** `handleAddToDashboard` */
    method AddToDashboard() returns (r: Option<ManualEntry>)
      ensures r == EntryFor(Fields())
    {
      if serverName == "" || proxyTarget == "" {
        r := None;
      } else {
        r := Some(ManualEntry(
          serverName,
          (if enableSsl then "https" else "http") + "://" + serverName,
          "Reverse proxy to " + proxyTarget,
          None,
          true,
          ProxyConfig(proxyTarget, enableSsl, sslCertPath, sslKeyPath, enableWebSockets)));
      }
    }
  }
}
