/**
 The URLs that the splitter accepts, as a language: exactly those that are put together from well-formed parts.
 */
module HttpUrlGrammar {
  import opened Wrappers
  import opened HttpChars
  import opened HttpMachine
  import opened HttpRecognisers
  import opened HttpUrl
  import opened HttpUrlParts

  // ----- the rest of a URL -----

  /** A rest that may follow the state s, which is in front of or in the server part. */
  predicate TailAfter(s: State, l: Tail) {
    && GoodTail(l)
    && (l != Tail("", None, 0, "") ==> s.SpacesBeforeUrl? || s.ServerStart? || s.Server? || s.ServerWithAt?)
    && (l.path != "" ==> l.path[0] == '/' || (l.path[0] == '*' && s.SpacesBeforeUrl?))
    && (s.SpacesBeforeUrl? && l.query.Some? ==> l.path != "")
  }

  function TailState(s: State, l: Tail): State {
    if l.fragment != "" then Fragment
    else if l.hashes > 0 then FragmentStart
    else Queried(if l.path == "" then s else Path, l.query)
  }

  /** One more byte. */
  function TailGrown(l: Tail, ch: char): Tail {
    if l.fragment != "" then l.(fragment := l.fragment + [ch])
    else if ch == '#' then l.(hashes := l.hashes + 1)
    else if l.hashes > 0 then l.(fragment := [ch])
    else if l.query.Some? then l.(query := Some(l.query.value + [ch]))
    else if ch == '?' then l.(query := Some(""))
    else l.(path := l.path + [ch])
  }

  /** What leads on behind the server part. */
  lemma TailChars(x: State, ch: char)
    requires !ParseUrlChar(x, ch).Dead?
    ensures var r := ParseUrlChar(x, ch);
      && (x.Fragment? ==> r.Fragment? && (IsUrlChar(ch) || ch == '?' || ch == '#'))
      && (x.FragmentStart? ==> if ch == '#' then r.FragmentStart? else r.Fragment? && (IsUrlChar(ch) || ch == '?'))
      && (x.Query? || x.QueryStart? ==>
           if ch == '#' then r.FragmentStart? else r.Query? && (IsUrlChar(ch) || ch == '?'))
      && (x.Path? ==>
           if ch == '#' then r.FragmentStart? else if ch == '?' then r.QueryStart? else r.Path? && IsUrlChar(ch))
  {
  }

  /** What leads there. */
  lemma HeadChars(s: State, ch: char)
    requires UrlState(s) && Level(s) <= 3 && !ParseUrlChar(s, ch).Dead? && Level(ParseUrlChar(s, ch)) >= 4
    ensures s.SpacesBeforeUrl? || s.ServerStart? || s.Server? || s.ServerWithAt?
    ensures var r := ParseUrlChar(s, ch);
      if ch == '?' then r.QueryStart? && !s.SpacesBeforeUrl?
      else r.Path? && IsUrlChar(ch) && ch != '#' && (ch == '/' || (ch == '*' && s.SpacesBeforeUrl?))
  {
  }

  lemma FirstTail(s: State, ch: char)
    requires UrlState(s) && Level(s) <= 3 && var r := ParseUrlChar(s, ch); !r.Dead? && Level(r) >= 4
    ensures var l := TailGrown(Tail("", None, 0, ""), ch); TailAfter(s, l) && TailState(s, l) == ParseUrlChar(s, ch)
  {
    HeadChars(s, ch);
    hide ParseUrlChar, Level, UrlState, IsUrlChar;
  }

  lemma MoreTail(s: State, l: Tail, ch: char)
    requires TailAfter(s, l) && l != Tail("", None, 0, "") && !ParseUrlChar(TailState(s, l), ch).Dead?
    ensures TailAfter(s, TailGrown(l, ch)) && TailState(s, TailGrown(l, ch)) == ParseUrlChar(TailState(s, l), ch)
  {
    TailChars(TailState(s, l), ch);
    hide ParseUrlChar, IsUrlChar;
  }

  lemma TailStep(s: State, l: Tail, ch: char)
    requires UrlState(s) && Level(s) <= 3 && TailAfter(s, l)
    requires var r := ParseUrlChar(TailState(s, l), ch); !r.Dead? && Level(r) >= 4
    ensures TailAfter(s, TailGrown(l, ch)) && TailState(s, TailGrown(l, ch)) == ParseUrlChar(TailState(s, l), ch)
  {
    hide ParseUrlChar, Level, UrlState, TailAfter, TailGrown;
    if l == Tail("", None, 0, "") {
      FirstTail(s, ch);
    } else {
      MoreTail(s, l, ch);
    }
  }

  lemma TailGrows(l: Tail, ch: char)
    requires GoodTail(l)
    ensures TailText(TailGrown(l, ch)) == TailText(l) + [ch]
  {
    var g := TailGrown(l, ch);
    SuffixGrows(l, ch);
    hide QuerySuffix, Hashes, GoodTail;
    var path, query, last := l.path, QuerySuffix(l.query), Hashes(l.hashes) + l.fragment;
    if g.hashes > l.hashes || g.fragment != l.fragment {
      Appended(path, query, last, [ch]);
    } else if g.path == l.path {
      Appended(path, query, "", [ch]);
    } else {
      Appended(path, "", "", [ch]);
    }
  }

  lemma Appended(x: string, y: string, z: string, w: string)
    ensures x + (y + (z + w)) == x + (y + z) + w && x + (y + "") == x + y && "" + w == w && x + ("" + "") == x
    ensures x + (y + w + "") == x + (y + "") + w && x + w + ("" + "") == x + ("" + "") + w
  {
  }

  /** The one part that grows. */
  lemma SuffixGrows(l: Tail, ch: char)
    requires GoodTail(l)
    ensures var g := TailGrown(l, ch);
      if g.hashes > l.hashes || g.fragment != l.fragment then
        && g.path == l.path && g.query == l.query
        && Hashes(g.hashes) + g.fragment == Hashes(l.hashes) + l.fragment + [ch]
      else
        && Hashes(l.hashes) + l.fragment == "" && Hashes(g.hashes) + g.fragment == ""
        && if g.path == l.path then QuerySuffix(g.query) == QuerySuffix(l.query) + [ch]
           else QuerySuffix(l.query) == "" && QuerySuffix(g.query) == "" && g.path == l.path + [ch]
  {
    hide PathText, QueryText, FragmentText;
    assert Hashes(l.hashes + 1) == Hashes(l.hashes) + ['#'];
  }

  lemma NoTail(s: State)
    ensures TailAfter(s, Tail("", None, 0, "")) && TailState(s, Tail("", None, 0, "")) == s
    ensures TailText(Tail("", None, 0, "")) == ""
  {
  }

  /** The levels of a run do not go down, and the dead state has no way out. */
  lemma LevelUp(s: State, ch: char)
    requires !ParseUrlChar(s, ch).Dead? && UrlState(s)
    ensures Level(s) <= Level(ParseUrlChar(s, ch)) && UrlState(ParseUrlChar(s, ch))
  {
    UrlCharStep(s, ch);
  }

  lemma DeadAfter(s: State, ch: char)
    ensures s.Dead? ==> ParseUrlChar(s, ch).Dead?
  {
  }

  lemma InTail(s: State, l: Tail)
    requires TailAfter(s, l)
    ensures GoodTail(l)
  {
  }

  /** From the byte after k on a run is behind the server part. */
  ghost predicate Beyond(s0: State, url: string, k: nat) {
    forall j | k < j <= |url| :: Level(From(s0, url[..j])) >= 4
  }

  lemma BeyondGrows(s0: State, init: string, ch: char, k: nat)
    requires Beyond(s0, init, k) && Level(From(s0, init + [ch])) >= 4
    ensures Beyond(s0, init + [ch], k)
  {
    hide From, Level;
    var url := init + [ch];
    forall j | k < j <= |url|
      ensures Level(From(s0, url[..j])) >= 4
    {
      assert if j == |url| then url[..j] == url else url[..j] == init[..j];
    }
  }

  lemma FromSnoc(s0: State, init: string, ch: char)
    ensures From(s0, init + [ch]) == ParseUrlChar(From(s0, init), ch)
  {
    hide ParseUrlChar;
    assert (init + [ch])[..|init|] == init;
  }

  /** What a URL has behind its server part, and in front of it. */
  lemma {:induction false} TailOf(s0: State, url: string) returns (head: string, l: Tail)
    requires UrlState(s0) && Level(s0) <= 3 && !From(s0, url).Dead?
    ensures url == head + TailText(l) && Beyond(s0, url, |head|)
    ensures UrlState(From(s0, url)) && UrlState(From(s0, head)) && Level(From(s0, head)) <= 3
    ensures TailAfter(From(s0, head), l) && From(s0, url) == TailState(From(s0, head), l)
    decreases |url|
  {
    hide ParseUrlChar, TailText, TailAfter, TailState, Level, UrlState, GoodTail, From, Beyond;
    if url == "" {
      head, l := NoTailOf(s0, url);
    } else {
      var init, ch := url[..|url| - 1], url[|url| - 1];
      assert init + [ch] == url;
      FromSnoc(s0, init, ch);
      DeadAfter(From(s0, init), ch);
      head, l := TailOf(s0, init);
      LevelUp(From(s0, init), ch);
      if Level(From(s0, url)) <= 3 {
        head, l := NoTailOf(s0, url);
      } else {
        BeyondGrows(s0, init, ch, |head|);
        TailStep(From(s0, head), l, ch);
        InTail(From(s0, head), l);
        TailGrows(l, ch);
        assert head + (TailText(l) + [ch]) == url;
        l := TailGrown(l, ch);
      }
    }
  }

  lemma NoTailOf(s0: State, url: string) returns (head: string, l: Tail)
    requires UrlState(s0) && (url == "" || UrlState(From(s0, url)))
    ensures url == head && url == head + TailText(l) && Beyond(s0, url, |head|)
    ensures TailAfter(From(s0, head), l) && From(s0, url) == TailState(From(s0, head), l)
    ensures UrlState(From(s0, url)) && (url == "" ==> From(s0, url) == s0)
  {
    hide ParseUrlChar, TailText, TailAfter, TailState, Level, UrlState;
    head, l := url, Tail("", None, 0, "");
    NoTail(From(s0, url));
    assert url + "" == url;
  }

  // ----- the front of a URL -----

  /** What has been read in front of the path, by the state reached: a scheme, its mark, and a server. */
  predicate HeadShape(r: State, head: string, schema: string, server: string) {
    && (r.SpacesBeforeUrl? ==> head == "")
    && (!r.SpacesBeforeUrl? ==> schema != "" && SchemaText(schema))
    && (r.Schema? ==> head == schema) && (r.SchemaSlash? ==> head == schema + ":")
    && (r.SchemaSlashSlash? ==> head == schema + ":/")
    && (r.ServerStart? ==> head == schema + "://" && server == "")
    && (r.Server? || r.ServerWithAt? ==> head == schema + "://" + server && server != "")
  }

  lemma HeadStep(r: State, head: string, schema: string, server: string, ch: char)
    returns (schema1: string, server1: string)
    requires UrlState(r) && HeadShape(r, head, schema, server)
    requires var q := ParseUrlChar(r, ch); !q.Dead? && Level(q) <= 3
    ensures HeadShape(ParseUrlChar(r, ch), head + [ch], schema1, server1)
  {
    var q := ParseUrlChar(r, ch);
    HeadMoves(r, ch);
    schema1 := if q.Schema? then head + [ch] else schema;
    server1 := if q.Server? || q.ServerWithAt? then (if r.ServerStart? then [ch] else server + [ch]) else "";
    hide ParseUrlChar, UrlState, Level;
    assert ":" + [ '/' ] == ":/" && ":/" + [ '/' ] == "://";
  }

  lemma HeadMoves(r: State, ch: char)
    requires UrlState(r)
    requires var q := ParseUrlChar(r, ch); !q.Dead? && Level(q) <= 3
    ensures var q := ParseUrlChar(r, ch);
      match r
      case SpacesBeforeUrl => q.Schema? && IsAlpha(ch)
      case Schema => if ch == ':' then q.SchemaSlash? else q.Schema? && IsAlpha(ch)
      case SchemaSlash => q.SchemaSlashSlash? && ch == '/'
      case SchemaSlashSlash => q.ServerStart? && ch == '/'
      case _ => (r.ServerStart? || r.Server? || r.ServerWithAt?) && (q.Server? || q.ServerWithAt?)
  {
  }

  lemma {:induction false} HeadOf(head: string) returns (schema: string, server: string)
    requires var r := From(SpacesBeforeUrl, head); !r.Dead? && Level(r) <= 3
    ensures UrlState(From(SpacesBeforeUrl, head)) && HeadShape(From(SpacesBeforeUrl, head), head, schema, server)
    decreases |head|
  {
    hide ParseUrlChar, Level, UrlState, HeadShape, From;
    if head == "" {
      schema, server := "", "";
      NothingRead();
    } else {
      var init, ch := head[..|head| - 1], head[|head| - 1];
      assert init + [ch] == head;
      FromSnoc(SpacesBeforeUrl, init, ch);
      var r := From(SpacesBeforeUrl, init);
      DeadAfter(r, ch);
      SpacesUrl();
      StillUrl(SpacesBeforeUrl, init);
      LevelUp(r, ch);
      schema, server := HeadOf(init);
      schema, server := HeadStep(r, init, schema, server, ch);
    }
  }

  lemma SpacesUrl()
    ensures UrlState(SpacesBeforeUrl) && UrlState(ServerStart)
  {
  }

  lemma NothingRead()
    ensures From(SpacesBeforeUrl, "") == SpacesBeforeUrl && UrlState(SpacesBeforeUrl)
    ensures HeadShape(SpacesBeforeUrl, "", "", "")
  {
  }

  lemma {:induction false} StillUrl(s0: State, url: string)
    requires UrlState(s0) && !From(s0, url).Dead?
    ensures UrlState(From(s0, url)) && Level(s0) <= Level(From(s0, url))
    decreases |url|
  {
    hide ParseUrlChar, Level, UrlState;
    if url != "" {
      var init, ch := url[..|url| - 1], url[|url| - 1];
      DeadAfter(From(s0, init), ch);
      StillUrl(s0, init);
      LevelUp(From(s0, init), ch);
    }
  }

  // ----- the server part -----

  /** What has been read of a host and a port, by the state reached. */
  predicate SiteShape(r: HostState, a: string, h: Site, port: string) {
    && !r.HostDead? && !r.UserInfo? && !r.UserInfoStart?
    && (r.HostStart? ==> a == "")
    && (r.V6Start? ==> a == "[")
    && (!r.HostStart? && !r.V6Start? ==> GoodSite(h))
    && (r.Host? ==> h.Name? && a == h.name)
    && (r.V6? ==> h.Literal? && h.zone.None? && a == "[" + h.address)
    && (r.ZoneStart? ==> h.Literal? && h.zone.None? && a == "[" + h.address + "%")
    && (r.Zone? ==> h.Literal? && h.zone.Some? && a == "[" + Inside(h))
    && (r.V6End? ==> h.Literal? && a == SiteText(h))
    && (r.PortStart? ==> a == SiteText(h) + ":")
    && (r.Port? ==> port != "" && PortText(port) && a == SiteText(h) + ":" + port)
  }

  lemma SiteMoves(r: HostState, ch: char)
    requires !HostChar(r, ch).HostDead? && !r.UserInfo? && !r.UserInfoStart?
    ensures var q := HostChar(r, ch);
      match r
      case HostStart => if ch == '[' then q.V6Start? else q.Host? && IsHostChar(ch)
      case Host => if ch == ':' then q.PortStart? else q.Host? && IsHostChar(ch)
      case V6Start => q.V6? && AddressText([ch])
      case V6 => if ch == ']' then q.V6End? else if ch == '%' then q.ZoneStart? else q.V6? && AddressText([ch])
      case ZoneStart => q.Zone? && ZoneText([ch])
      case Zone => if ch == ']' then q.V6End? else q.Zone? && ZoneText([ch])
      case V6End => q.PortStart? && ch == ':'
      case PortStart => q.Port? && IsNum(ch)
      case Port => q.Port? && IsNum(ch)
      case _ => false
  {
  }

  function SiteGrown(r: HostState, q: HostState, h: Site, ch: char): Site {
    if q.Host? then Name(if r.Host? && h.Name? then h.name + [ch] else [ch])
    else if q.V6? then Literal(if r.V6? && h.Literal? then h.address + [ch] else [ch], None)
    else if q.Zone? && h.Literal? then
      Literal(h.address, Some(if r.Zone? && h.zone.Some? then h.zone.value + [ch] else [ch]))
    else h
  }

  lemma SiteStep(r: HostState, a: string, h: Site, port: string, ch: char)
    requires SiteShape(r, a, h, port) && !HostChar(r, ch).HostDead?
    ensures var q := HostChar(r, ch);
      SiteShape(q, a + [ch], SiteGrown(r, q, h, ch), if r.Port? then port + [ch] else [ch])
  {
    SiteMoves(r, ch);
    hide HostChar;
  }

  lemma {:induction false} SiteOf(a: string) returns (h: Site, port: string)
    requires !HostFrom(HostStart, a).HostDead?
    ensures SiteShape(HostFrom(HostStart, a), a, h, port)
    decreases |a|
  {
    hide HostChar, SiteShape;
    if a == "" {
      h, port := Name(""), "";
      NoSite(h);
    } else {
      var init, ch := a[..|a| - 1], a[|a| - 1];
      assert init + [ch] == a;
      HostDeadStays(HostFrom(HostStart, init), ch);
      h, port := SiteOf(init);
      SiteStep(HostFrom(HostStart, init), init, h, port, ch);
      var r, q := HostFrom(HostStart, init), HostFrom(HostStart, a);
      h, port := SiteGrown(r, q, h, ch), if r.Port? then port + [ch] else [ch];
    }
  }

  lemma NoSite(h: Site)
    ensures SiteShape(HostStart, "", h, "")
  {
  }

  lemma HostDeadStays(s: HostState, ch: char)
    ensures s.HostDead? ==> HostChar(s, ch).HostDead?
  {
  }

  lemma UserMoves(r: HostState, ch: char)
    requires (r.UserInfo? || r.UserInfoStart?) && !HostChar(r, ch).HostDead?
    ensures if ch == '@' then HostChar(r, ch).HostStart? else HostChar(r, ch).UserInfo? && IsUserInfoChar(ch)
  {
  }

  /** User information ends at the first '@'. */
  lemma {:induction false} UserOf(a: string) returns (user: string, rest: string)
    requires !HostFrom(UserInfoStart, a).HostDead?
    ensures UserText(user)
    ensures var r := HostFrom(UserInfoStart, a);
      if r.UserInfo? || r.UserInfoStart? then a == user
      else a == user + "@" + rest && r == HostFrom(HostStart, rest)
    decreases |a|
  {
    hide HostChar;
    if a == "" {
      user, rest := "", "";
    } else {
      var init, ch := a[..|a| - 1], a[|a| - 1];
      assert init + [ch] == a;
      var r := HostFrom(UserInfoStart, init);
      HostDeadStays(r, ch);
      user, rest := UserOf(init);
      if r.UserInfo? || r.UserInfoStart? {
        UserMoves(r, ch);
        if ch == '@' {
          rest := "";
          assert a == user + "@" + "";
        } else {
          user := user + [ch];
        }
      } else {
        HostConcat(HostStart, rest, [ch]);
        HostOneRun(r, ch);
        assert a == user + "@" + (rest + [ch]);
        rest := rest + [ch];
        UserDone(rest);
      }
    }
  }

  /** Behind the '@' there is no user information. */
  lemma UserDone(rest: string)
    requires !HostFrom(HostStart, rest).HostDead?
    ensures var r := HostFrom(HostStart, rest); !r.UserInfo? && !r.UserInfoStart?
  {
    hide HostFrom, HostChar;
    var h, port := SiteOf(rest);
  }

  /** A complete server part names a server. */
  lemma ServerOf(a: string, schema: string, user: bool) returns (o: Origin)
    requires Complete(HostFrom(if user then UserInfoStart else HostStart, a)) && SchemaText(schema)
    ensures GoodOrigin(o) && ServerText(o) == a && o.schema == schema
  {
    hide HostFrom, HostChar, GoodSite, SiteText;
    var rest, name := a, None;
    if user {
      var u;
      u, rest := UserOf(a);
      name := Some(u);
    }
    var h, port := SiteOf(rest);
    var r := HostFrom(HostStart, rest);
    o := Origin(schema, name, h, if r.Port? then port else "");
    SiteWhole(r, rest, h, port);
  }

  lemma SiteWhole(r: HostState, a: string, h: Site, port: string)
    requires SiteShape(r, a, h, port) && Complete(r)
    ensures GoodSite(h) && a == SiteText(h) + After(":", if r.Port? then port else "") && (r.Port? ==> PortText(port))
  {
    hide GoodSite;
  }

  // ----- the language -----

  lemma {:induction false} ServerOnly(x: string)
    requires x != "" && var r := From(ServerStart, x); !r.Dead? && Level(r) <= 3
    ensures var r := From(ServerStart, x); r.Server? || r.ServerWithAt?
    decreases |x|
  {
    hide ParseUrlChar, Level, UrlState;
    var init, ch := x[..|x| - 1], x[|x| - 1];
    DeadAfter(From(ServerStart, init), ch);
    SpacesUrl();
    StillUrl(ServerStart, init);
    LevelUp(From(ServerStart, init), ch);
    if init != "" {
      ServerOnly(init);
    }
    HeadMoves(From(ServerStart, init), ch);
  }

  lemma PartLevels(s: State)
    ensures UrlState(s) && (Level(s) <= 2 || Level(s) >= 4) ==> PartOf(s) != Some(HOST)
    ensures s.Server? || s.ServerWithAt? ==> PartOf(s) == Some(HOST) && Level(s) == 3
    ensures PartOf(s) == Some(HOST) ==> s.Server? || s.ServerWithAt?
    ensures Level(ServerStart) == 2
  {
  }

  lemma OuterIs(url: string, connect: bool, i: nat)
    requires i < |url|
    ensures Outer(url, connect, i) == PartOf(From(StartState(connect), url[..i + 1]))
    ensures !Walk(url, connect, |url|).Dead? ==> UrlState(From(StartState(connect), url[..i + 1]))
  {
    hide ParseUrlChar, PartOf, Level, UrlState, Walk, From;
    WalkFrom(url, connect, i + 1);
    if !Walk(url, connect, |url|).Dead? {
      WalkLevels(url, connect, i + 1, |url|);
    }
  }

  /** Levels go up along a run. */
  lemma LevelsUp(url: string, connect: bool, m: nat, n: nat)
    requires m <= n <= |url| && !Walk(url, connect, |url|).Dead?
    ensures var r, s := From(StartState(connect), url[..m]), From(StartState(connect), url[..n]);
      UrlState(r) && UrlState(s) && Level(r) <= Level(s)
  {
    hide ParseUrlChar, PartOf, Level, UrlState, Walk, From;
    WalkFrom(url, connect, m);
    WalkFrom(url, connect, n);
    WalkLevels(url, connect, n, |url|);
    StillNotDead(Walk(url, connect, n));
    WalkLevels(url, connect, m, n);
  }

  lemma InServer(url: string, connect: bool, a: nat, e: nat, n: nat)
    requires a < n <= e <= |url| && From(StartState(connect), url[..a]) == ServerStart
    requires !Walk(url, connect, |url|).Dead? && Level(From(StartState(connect), url[..e])) <= 3
    ensures PartOf(From(StartState(connect), url[..n])) == Some(HOST)
  {
    hide ParseUrlChar, PartOf, Level, UrlState, From, Outers, Walk;
    var x := url[a..n];
    assert url[..n] == url[..a] + x;
    LevelsUp(url, connect, n, e);
    FromConcat(StartState(connect), url[..a], x);
    StillNotDead(From(ServerStart, x));
    ServerOnly(x);
    PartLevels(From(ServerStart, x));
  }

  lemma BeforeServer(url: string, connect: bool, a: nat, n: nat)
    requires n <= a <= |url| && !Walk(url, connect, |url|).Dead?
    requires From(StartState(connect), url[..a]) == ServerStart
    ensures PartOf(From(StartState(connect), url[..n])) != Some(HOST)
  {
    hide ParseUrlChar, PartOf, Level, UrlState, Walk, From;
    LevelsUp(url, connect, n, a);
    PartLevels(ServerStart);
    PartLevels(From(StartState(connect), url[..n]));
  }

  lemma BehindServer(url: string, connect: bool, e: nat, n: nat)
    requires e < n <= |url| && Beyond(StartState(connect), url, e) && !Walk(url, connect, |url|).Dead?
    ensures PartOf(From(StartState(connect), url[..n])) != Some(HOST)
  {
    hide ParseUrlChar, PartOf, Level, UrlState, Walk, From;
    LevelsUp(url, connect, n, n);
    PartLevels(From(StartState(connect), url[..n]));
  }

  /** The server part is between the scheme and the rest. */
  lemma RegionOf(url: string, connect: bool, a: nat, e: nat)
    requires a < e <= |url| && !Walk(url, connect, |url|).Dead? && Beyond(StartState(connect), url, e)
    requires From(StartState(connect), url[..a]) == ServerStart && Level(From(StartState(connect), url[..e])) <= 3
    ensures Region(url, connect, a, e)
  {
    hide ParseUrlChar, PartOf, Level, UrlState, Walk, From, Outer, Beyond;
    forall i | 0 <= i < |url|
      ensures Outer(url, connect, i) == Some(HOST) <==> a <= i < e
    {
      OuterIs(url, connect, i);
      if i < a {
        BeforeServer(url, connect, a, i + 1);
      } else if i < e {
        InServer(url, connect, a, e, i + 1);
      } else {
        BehindServer(url, connect, e, i + 1);
      }
    }
  }

  lemma StillNotDead(s: State)
    ensures UrlState(s) ==> !s.Dead?
  {
  }

  /** A URL that is accepted and has a front has a server. */
  lemma HasServer(url: string, connect: bool, beyond: string, head: string)
    requires Accepts(url, connect, beyond) && |head| <= |url| && head == url[..|head|]
    requires Beyond(StartState(connect), url, |head|)
    requires var s := From(StartState(connect), head); UrlState(s) && Level(s) <= 3 && !s.SpacesBeforeUrl?
    ensures Owns(OuterUpTo(url, connect, |url|), HOST)
    ensures var s := From(StartState(connect), head); s.Server? || s.ServerWithAt?
  {
    hide ParseUrlChar, PartOf, Level, UrlState, Walk, From, StrToUL, FirstOf, Complete, Inner, Outer, Owner;
    AcceptedAlive(url, connect, beyond);
    var outer, all := OuterUpTo(url, connect, |url|), AllOwners(url, connect);
    if connect {
      assert Owns(all, HOST);
      var i :| 0 <= i < |url| && all[i] == Some(HOST);
      OwnerHost(url, connect, i);
      assert outer[i] == Some(HOST);
    } else {
      FirstByte(url, head);
      assert outer[0] == Some(SCHEMA);
    }
    var i :| 0 <= i < |url| && outer[i] == Some(HOST);
    OuterIs(url, connect, i);
    PartLevels(From(StartState(connect), url[..i + 1]));
    if i + 1 <= |head| {
      LevelsUp(url, connect, i + 1, |head|);
      ThirdLevel(From(StartState(connect), head));
    }
  }

  lemma OwnerHost(url: string, connect: bool, i: nat)
    requires i < |url| && Owner(url, connect, i) == Some(HOST)
    ensures Outer(url, connect, i) == Some(HOST)
  {
    hide Walk, PartOf, HostPart, Inner;
  }

  lemma ThirdLevel(s: State)
    requires UrlState(s) && Level(s) == 3
    ensures s.Server? || s.ServerWithAt?
  {
  }

  /** Any front begins with a scheme. */
  lemma FirstByte(url: string, head: string)
    requires |head| <= |url| && head == url[..|head|] && !Walk(url, false, |url|).Dead?
    requires var s := From(SpacesBeforeUrl, head); UrlState(s) && Level(s) <= 3 && !s.SpacesBeforeUrl?
    ensures url != "" && Outer(url, false, 0) == Some(SCHEMA)
  {
    hide ParseUrlChar, Level, UrlState, Walk, From, PartOf, Outer;
    SpacesUrl();
    NothingRead();
    assert head != "";
    assert url[..1] == "" + [url[0]];
    FromSnoc(SpacesBeforeUrl, "", url[0]);
    LevelsUp(url, false, 1, |head|);
    StillNotDead(From(SpacesBeforeUrl, url[..1]));
    HeadMoves(SpacesBeforeUrl, url[0]);
    OuterIs(url, false, 0);
    FirstPart();
  }

  lemma FirstPart()
    ensures PartOf(Schema) == Some(SCHEMA)
  {
  }

  /** An accepted URL has well-formed parts. */
  lemma PartsOf(url: string, connect: bool, beyond: string) returns (t: Target)
    requires Accepts(url, connect, beyond) && (url != "" || connect)
    ensures WellFormed(t, connect) && Text(t) == url
  {
    hide ParseUrlChar, PartOf, Level, UrlState, Walk, From, Accepts, GoodOrigin, GoodTail, TailAfter, TailText,
      ServerText, Beyond, Owns, Region, SchemaText;
    var s0 := StartState(connect);
    WalkFrom(url, connect, |url|);
    assert url[..|url|] == url;
    AcceptedAlive(url, connect, beyond);
    StartLow(connect);
    var head, l := TailOf(s0, url);
    assert head == url[..|head|];
    var s := From(s0, head);
    if s.SpacesBeforeUrl? {
      OnlyBare(connect, head);
      PathFirst(l);
      t := Target(None, l);
      assert "" + ("" + TailText(l)) == TailText(l) && head + TailText(l) == TailText(l);
    } else {
      TailSlash(s, l);
      var o := FrontParts(url, connect, beyond, head, TailText(l));
      t := Target(Some(o), l);
      FrontText(t, head);
    }
  }

  lemma FrontText(t: Target, head: string)
    requires t.origin.Some? && head == Prefix(t) + Authority(t)
    ensures Text(t) == head + TailText(t.tail)
  {
    hide Prefix, Authority, TailText;
  }

  /** The parts in front of the path. */
  lemma FrontParts(url: string, connect: bool, beyond: string, head: string, rest: string) returns (o: Origin)
    requires Accepts(url, connect, beyond) && url == head + rest && Beyond(StartState(connect), url, |head|)
    requires var s := From(StartState(connect), head); UrlState(s) && Level(s) <= 3 && !s.SpacesBeforeUrl?
    ensures GoodOrigin(o) && (connect <==> o.schema == "")
    ensures head == (if o.schema == "" then "" else o.schema + "://") + ServerText(o)
  {
    hide ParseUrlChar, PartOf, Level, UrlState, Walk, From, Accepts, GoodOrigin, ServerText, Beyond, Owns, Region,
      SchemaText;
    AcceptedAlive(url, connect, beyond);
    assert head == url[..|head|];
    HasServer(url, connect, beyond, head);
    var schema, server := FrontOf(connect, head);
    var prefix := if connect then "" else schema + "://";
    assert url[..|prefix|] == prefix && |prefix + server| == |head|;
    RegionOf(url, connect, |prefix|, |head|);
    o := OriginOf(url, connect, beyond, prefix, server, rest, schema);
  }

  lemma AcceptedAlive(url: string, connect: bool, beyond: string)
    requires Accepts(url, connect, beyond)
    ensures !Walk(url, connect, |url|).Dead?
    ensures Owns(OuterUpTo(url, connect, |url|), HOST) ==> Complete(Inner(url, connect, |url|))
  {
    hide Walk, Outer, Inner, Owns, Complete, StrToUL, FirstOf;
  }

  lemma StartLow(connect: bool)
    ensures var s := StartState(connect); UrlState(s) && Level(s) <= 3
  {
  }

  lemma OnlyBare(connect: bool, head: string)
    requires From(StartState(connect), head).SpacesBeforeUrl?
    ensures !connect && head == ""
  {
    hide ParseUrlChar, From, UrlState;
    SpacesUrl();
    StillUrl(StartState(connect), head);
    if !connect {
      var schema, server := HeadOf(head);
    }
  }

  lemma PathFirst(l: Tail)
    requires TailAfter(SpacesBeforeUrl, l) && TailText(l) != ""
    ensures GoodTail(l) && l.path != "" && (l.path[0] == '/' || l.path[0] == '*')
  {
  }

  lemma TailSlash(s: State, l: Tail)
    requires TailAfter(s, l) && !s.SpacesBeforeUrl?
    ensures GoodTail(l) && (l.path != "" ==> l.path[0] == '/')
  {
  }

  lemma FrontOf(connect: bool, head: string) returns (schema: string, server: string)
    requires var s := From(StartState(connect), head); s.Server? || s.ServerWithAt?
    ensures var prefix := if connect then "" else schema + "://";
      head == prefix + server && From(StartState(connect), prefix) == ServerStart
    ensures server != "" && SchemaText(schema) && (schema == "" <==> connect)
  {
    hide ParseUrlChar, From, Outers;
    PartLevels(From(StartState(connect), head));
    if connect {
      schema, server := "", head;
      NothingRun(ServerStart);
      assert "" + head == head;
    } else {
      schema, server := HeadOf(head);
      SchemaRun(schema);
    }
  }

  lemma OriginOf(url: string, connect: bool, beyond: string, prefix: string, server: string, rest: string,
                 schema: string)
    returns (o: Origin)
    requires Accepts(url, connect, beyond) && Owns(OuterUpTo(url, connect, |url|), HOST)
    requires url == prefix + server + rest && Region(url, connect, |prefix|, |prefix + server|) && SchemaText(schema)
    ensures GoodOrigin(o) && ServerText(o) == server && o.schema == schema
  {
    hide Walk, Outer, HostFrom, Owns, Complete, Accepts, GoodOrigin, ServerText, FoundAt;
    AcceptedAlive(url, connect, beyond);
    var a, e := |prefix|, |prefix + server|;
    InnerSkips(url, connect, 0, a);
    InnerFrom(url, connect, a, e, e);
    InnerSkips(url, connect, e, |url|);
    assert url[a..e] == server;
    o := ServerOf(server, schema, FoundAt(url, connect, |url|));
  }

  /**
   The language of the splitter: a URL is accepted if and only if it is empty, and not for CONNECT, or it is put
   together from well-formed parts whose port number is one; for CONNECT these are only a host and a port.
   */
  lemma AcceptedUrls(url: string, connect: bool, beyond: string)
    ensures Accepts(url, connect, beyond) <==>
      || (url == "" && !connect)
      || exists t: Target ::
           WellFormed(t, connect) && Text(t) == url && (connect ==> HostAndPort(t)) && PortAllowed(t, beyond)
  {
    hide GoodTail, GoodSite, Accepts, PortAllowed, HostAndPort, Text;
    EmptyUrl(connect, beyond);
    if Accepts(url, connect, beyond) && (url != "" || connect) {
      var t := PartsOf(url, connect, beyond);
      Composed(t, connect, beyond);
    }
    forall t: Target | WellFormed(t, connect) && Text(t) == url
      ensures Accepts(url, connect, beyond) <==> (connect ==> HostAndPort(t)) && PortAllowed(t, beyond)
    {
      Composed(t, connect, beyond);
    }
  }

  lemma EmptyUrl(connect: bool, beyond: string)
    ensures Accepts("", connect, beyond) <==> !connect
  {
    assert AllOwners("", connect) == [] && OuterUpTo("", connect, 0) == [];
    assert !Owns([], PORT) && !Owns([], SCHEMA) && !Owns([], HOST);
  }
}
