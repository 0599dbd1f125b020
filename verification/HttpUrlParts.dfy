/**
 URLs put together from their parts: the splitter accepts them and finds exactly these parts.
 */
module HttpUrlParts {
  import opened Wrappers
  import opened HttpChars
  import opened HttpMachine
  import opened HttpRecognisers
  import opened HttpUrl

  /** A host name, or an address in brackets that may have a zone. */
  datatype Site = Name(name: string) | Literal(address: string, zone: Option<string>)

  /** What names the server; a port that is empty is absent. */
  datatype Origin = Origin(schema: string, user: Option<string>, site: Site, port: string)

  /** The rest; there may be more than one '#' before the fragment. */
  datatype Tail = Tail(path: string, query: Option<string>, hashes: nat, fragment: string)

  datatype Target = Target(origin: Option<Origin>, tail: Tail)

  predicate SchemaText(s: string) {
    forall i | 0 <= i < |s| :: IsAlpha(s[i])
  }

  predicate UserText(s: string) {
    forall i | 0 <= i < |s| :: IsUserInfoChar(s[i])
  }

  predicate NameText(s: string) {
    forall i | 0 <= i < |s| :: IsHostChar(s[i])
  }

  predicate AddressText(s: string) {
    forall i | 0 <= i < |s| :: IsHex(s[i]) || s[i] == ':' || s[i] == '.'
  }

  predicate ZoneText(s: string) {
    forall i | 0 <= i < |s| ::
      IsAlphaNum(s[i]) || s[i] == '%' || s[i] == '.' || s[i] == '-' || s[i] == '_' || s[i] == '~'
  }

  predicate PortText(s: string) {
    forall i | 0 <= i < |s| :: IsNum(s[i])
  }

  predicate PathText(s: string) {
    forall i | 0 <= i < |s| :: IsUrlChar(s[i])
  }

  predicate QueryText(s: string) {
    forall i | 0 <= i < |s| :: IsUrlChar(s[i]) || s[i] == '?'
  }

  predicate FragmentText(s: string) {
    forall i | 0 <= i < |s| :: IsUrlChar(s[i]) || s[i] == '?' || s[i] == '#'
  }

  predicate GoodSite(h: Site) {
    if h.Name? then h.name != "" && NameText(h.name)
    else h.address != "" && AddressText(h.address) && (h.zone.Some? ==> h.zone.value != "" && ZoneText(h.zone.value))
  }

  predicate GoodOrigin(o: Origin) {
    SchemaText(o.schema) && (o.user.Some? ==> UserText(o.user.value)) && GoodSite(o.site) && PortText(o.port)
  }

  predicate GoodTail(l: Tail) {
    && PathText(l.path) && (l.query.Some? ==> QueryText(l.query.value)) && FragmentText(l.fragment)
    && (l.fragment != "" ==> l.hashes > 0 && l.fragment[0] != '#')
    && (l.hashes > 0 ==> l.path != "" || l.query.Some?)
  }

  /** A target of CONNECT has no scheme, and others have one if they name a server; a path may also be an asterisk. */
  predicate WellFormed(t: Target, connect: bool) {
    && GoodTail(t.tail)
    && if t.origin.Some? then
         && GoodOrigin(t.origin.value) && (connect <==> t.origin.value.schema == "")
         && (t.tail.path != "" ==> t.tail.path[0] == '/')
       else !connect && t.tail.path != "" && (t.tail.path[0] == '/' || t.tail.path[0] == '*')
  }

  function After(mark: string, part: string): string {
    if part == "" then "" else mark + part
  }

  function ZoneSuffix(zone: Option<string>): string {
    if zone.None? then "" else "%" + zone.value
  }

  /** The bytes of the host, without brackets. */
  function Inside(h: Site): string {
    if h.Name? then h.name else h.address + ZoneSuffix(h.zone)
  }

  function SiteText(h: Site): string {
    if h.Name? then h.name else "[" + (Inside(h) + "]")
  }

  function UserPrefix(user: Option<string>): string {
    if user.None? then "" else user.value + "@"
  }

  function ServerText(o: Origin): string {
    UserPrefix(o.user) + (SiteText(o.site) + After(":", o.port))
  }

  function Hashes(n: nat): (s: string)
    ensures |s| == n && forall i | 0 <= i < n :: s[i] == '#'
  {
    seq(n, i => '#')
  }

  function QuerySuffix(query: Option<string>): string {
    if query.None? then "" else "?" + query.value
  }

  function TailText(l: Tail): string {
    l.path + (QuerySuffix(l.query) + (Hashes(l.hashes) + l.fragment))
  }

  function Prefix(t: Target): string {
    if t.origin.None? then "" else if t.origin.value.schema == "" then "" else t.origin.value.schema + "://"
  }

  function Authority(t: Target): string {
    if t.origin.None? then "" else ServerText(t.origin.value)
  }

  function Rest(t: Target): string {
    TailText(t.tail)
  }

  function Text(t: Target): string {
    Prefix(t) + (Authority(t) + Rest(t))
  }

  // ----- the owners that the parts should have -----

  function Rep(part: Option<Field>, n: nat): (r: Owners)
    ensures |r| == n && forall i | 0 <= i < n :: r[i] == part
  {
    seq(n, i => part)
  }

  function Marks(f: Field, part: string): Owners {
    Rep(Some(f), |part|)
  }

  function MarksAfter(f: Field, part: string): Owners {
    if part == "" then [] else [None] + Marks(f, part)
  }

  function SiteMarks(h: Site): Owners {
    if h.Name? then Marks(HOST, h.name) else [None] + (Marks(HOST, Inside(h)) + [None])
  }

  function UserMarks(user: Option<string>): Owners {
    if user.None? then [] else Marks(USERINFO, user.value) + [None]
  }

  function ServerMarks(o: Origin): Owners {
    UserMarks(o.user) + (SiteMarks(o.site) + MarksAfter(PORT, o.port))
  }

  function QueryMarks(query: Option<string>): Owners {
    if query.None? then [] else [None] + Marks(QUERY, query.value)
  }

  function TailMarks(l: Tail): Owners {
    Marks(PATH, l.path) + (QueryMarks(l.query) + (Rep(None, l.hashes) + Marks(FRAGMENT, l.fragment)))
  }

  function PrefixMarks(t: Target): Owners {
    if t.origin.None? then []
    else if t.origin.value.schema == "" then [] else Marks(SCHEMA, t.origin.value.schema) + Rep(None, 3)
  }

  function AuthorityMarks(t: Target): Owners {
    if t.origin.None? then [] else ServerMarks(t.origin.value)
  }

  function RestMarks(t: Target): Owners {
    TailMarks(t.tail)
  }

  function TextMarks(t: Target): Owners {
    PrefixMarks(t) + (AuthorityMarks(t) + RestMarks(t))
  }

  // ----- the outer automaton on strings -----

  function From(s: State, url: string): State {
    if url == "" then s else ParseUrlChar(From(s, url[..|url| - 1]), url[|url| - 1])
  }

  function Outers(s: State, url: string): (r: Owners)
    ensures |r| == |url|
  {
    if url == "" then [] else Outers(s, url[..|url| - 1]) + [PartOf(From(s, url))]
  }

  lemma {:induction false} FromConcat(s: State, a: string, b: string)
    ensures From(s, a + b) == From(From(s, a), b) && Outers(s, a + b) == Outers(s, a) + Outers(From(s, a), b)
  {
    hide ParseUrlChar, PartOf;
    if b == "" {
      assert a + b == a;
    } else {
      assert (a + b)[..|a + b| - 1] == a + b[..|b| - 1];
      FromConcat(s, a, b[..|b| - 1]);
    }
  }

  lemma {:induction false} WalkFrom(url: string, connect: bool, n: nat)
    requires n <= |url|
    ensures Walk(url, connect, n) == From(StartState(connect), url[..n])
    ensures OuterUpTo(url, connect, n)[..n] == Outers(StartState(connect), url[..n])
  {
    hide ParseUrlChar, PartOf;
    if n > 0 {
      WalkFrom(url, connect, n - 1);
      assert url[..n][..n - 1] == url[..n - 1];
      assert OuterUpTo(url, connect, n)[..n] ==
             OuterUpTo(url, connect, n - 1)[..n - 1] + [PartOf(Walk(url, connect, n))];
    }
  }

  /** A part whose bytes all lead to, and stay in, state r. */
  ghost predicate Stays(s: State, r: State, part: string) {
    part != "" ==> ParseUrlChar(s, part[0]) == r && forall i | 1 <= i < |part| :: ParseUrlChar(r, part[i]) == r
  }

  lemma {:induction false} StaysRun(s: State, r: State, part: string)
    requires Stays(s, r, part)
    ensures From(s, part) == (if part == "" then s else r) && Outers(s, part) == Rep(PartOf(r), |part|)
  {
    hide ParseUrlChar, PartOf;
    if part != "" {
      var init := part[..|part| - 1];
      StaysRun(s, r, init);
    }
  }

  lemma ThreeRun()
    ensures From(Schema, "://") == ServerStart && Outers(Schema, "://") == Rep(None, 3)
  {
    FromConcat(Schema, ":", "//");
    FromConcat(SchemaSlash, "/", "/");
    OneRun(Schema, ':');
    OneRun(SchemaSlash, '/');
    OneRun(SchemaSlashSlash, '/');
    assert "://" == ":" + "//" && "//" == "/" + "/";
  }

  lemma OneRun(s: State, ch: char)
    ensures From(s, [ch]) == ParseUrlChar(s, ch) && Outers(s, [ch]) == [PartOf(ParseUrlChar(s, ch))]
  {
    hide ParseUrlChar, PartOf;
    assert [ch][..0] == "" && [ch][0] == ch && From(s, "") == s && Outers(s, "") == [];
  }

  lemma NothingRun(s: State)
    ensures From(s, "") == s && Outers(s, "") == []
  {
  }

  lemma PrefixRun(t: Target, connect: bool)
    requires WellFormed(t, connect)
    ensures From(StartState(connect), Prefix(t)) == if t.origin.None? then SpacesBeforeUrl else ServerStart
    ensures Outers(StartState(connect), Prefix(t)) == PrefixMarks(t)
  {
    hide ParseUrlChar, From, Outers;
    NothingRun(StartState(connect));
    if t.origin.Some? && t.origin.value.schema != "" {
      SchemaRun(t.origin.value.schema);
    }
  }

  lemma SchemaRun(schema: string)
    requires schema != "" && SchemaText(schema)
    ensures From(SpacesBeforeUrl, schema + "://") == ServerStart
    ensures Outers(SpacesBeforeUrl, schema + "://") == Marks(SCHEMA, schema) + Rep(None, 3)
  {
    assert Stays(SpacesBeforeUrl, Schema, schema);
    hide ParseUrlChar, From, Outers, Stays;
    StaysRun(SpacesBeforeUrl, Schema, schema);
    ThreeRun();
    FromConcat(SpacesBeforeUrl, schema, "://");
  }

  // ----- the server part, to the outer automaton -----

  /** What the outer automaton takes for a server: no two '@' in a row. */
  predicate ServerBytes(s: string) {
    forall i | 0 <= i < |s| ::
      && (IsUserInfoChar(s[i]) || s[i] == '@' || s[i] == '[' || s[i] == ']')
      && (i > 0 && s[i] == '@' ==> s[i - 1] != '@')
  }

  function ServerState(s: string): State {
    if s == "" then ServerStart else if s[|s| - 1] == '@' then ServerWithAt else Server
  }

  lemma ServerByte(s: State, ch: char)
    requires s.ServerStart? || s.Server? || s.ServerWithAt?
    requires IsUserInfoChar(ch) || ch == '@' || ch == '[' || ch == ']'
    requires s.ServerWithAt? ==> ch != '@'
    ensures ParseUrlChar(s, ch) == if ch == '@' then ServerWithAt else Server
  {
  }

  lemma {:induction false} ServerRun(s: string)
    requires ServerBytes(s)
    ensures From(ServerStart, s) == ServerState(s) && Outers(ServerStart, s) == Rep(Some(HOST), |s|)
    decreases |s|
  {
    hide ParseUrlChar, IsUserInfoChar;
    if s != "" {
      var init, ch := s[..|s| - 1], s[|s| - 1];
      assert ServerBytes(init);
      ServerRun(init);
      ServerByte(ServerState(init), ch);
      assert Rep(Some(HOST), |s|) == Rep(Some(HOST), |init|) + [Some(HOST)];
    }
  }

  lemma JoinBytes(x: string, y: string)
    requires ServerBytes(x) && ServerBytes(y) && (x != "" && y != "" && x[|x| - 1] == '@' ==> y[0] != '@')
    ensures ServerBytes(x + y)
  {
  }

  lemma SiteBytes(h: Site)
    requires GoodSite(h)
    ensures var s := SiteText(h); ServerBytes(s) && '@' !in s && s != ""
  {
    if h.Literal? {
      LiteralBytes(h);
      hide GoodSite, Inside;
      assert ServerBytes("[") && ServerBytes("]");
      JoinBytes(Inside(h), "]");
      JoinBytes("[", Inside(h) + "]");
    }
  }

  lemma LiteralBytes(h: Site)
    requires GoodSite(h) && h.Literal?
    ensures ServerBytes(Inside(h)) && '@' !in Inside(h)
  {
    var zone := ZoneSuffix(h.zone);
    assert ServerBytes(h.address) && '@' !in h.address;
    assert ServerBytes(zone) && '@' !in zone;
    hide GoodSite, ZoneSuffix;
    JoinBytes(h.address, zone);
  }

  lemma AuthorityBytes(o: Origin)
    requires GoodOrigin(o)
    ensures var s := ServerText(o); ServerBytes(s) && s != "" && s[|s| - 1] != '@' && (o.user.None? ==> '@' !in s)
    ensures ServerBytes(UserPrefix(o.user))
  {
    SiteBytes(o.site);
    hide SiteText, GoodSite;
    var port := After(":", o.port);
    assert ServerBytes(port) && '@' !in port;
    JoinBytes(SiteText(o.site), port);
    JoinBytes(UserPrefix(o.user), SiteText(o.site) + port);
  }

  // ----- what follows it -----

  lemma TailStays(l: Tail)
    requires GoodTail(l)
    ensures Stays(Path, Path, l.path) && (l.query.Some? ==> Stays(QueryStart, Query, l.query.value))
    ensures Stays(FragmentStart, Fragment, l.fragment)
    ensures Stays(Path, FragmentStart, Hashes(l.hashes)) && Stays(Query, FragmentStart, Hashes(l.hashes))
    ensures Stays(QueryStart, FragmentStart, Hashes(l.hashes))
  {
  }

  lemma TailParts()
    ensures PartOf(Path) == Some(PATH) && PartOf(Query) == Some(QUERY) && PartOf(Fragment) == Some(FRAGMENT)
    ensures PartOf(QueryStart) == PartOf(FragmentStart) == None
    ensures ParseUrlChar(Server, '?') == ParseUrlChar(Path, '?') == QueryStart
    ensures ParseUrlChar(Server, '/') == ParseUrlChar(SpacesBeforeUrl, '/') == Path
    ensures ParseUrlChar(SpacesBeforeUrl, '*') == Path
  {
  }

  /** The state behind the query, if there is one. */
  function Queried(s: State, query: Option<string>): State {
    if query.None? then s else if query.value == "" then QueryStart else Query
  }

  lemma QueryRun(s: State, l: Tail)
    requires GoodTail(l) && (l.query.Some? ==> ParseUrlChar(s, '?') == QueryStart)
    ensures From(s, QuerySuffix(l.query)) == Queried(s, l.query) &&
      Outers(s, QuerySuffix(l.query)) == QueryMarks(l.query)
  {
    hide ParseUrlChar, PartOf, Stays, From, Outers, GoodTail;
    TailStays(l);
    TailParts();
    NothingRun(s);
    if l.query.Some? {
      FromConcat(s, "?", l.query.value);
      OneRun(s, '?');
      StaysRun(QueryStart, Query, l.query.value);
    }
  }

  lemma PathRun(s: State, l: Tail)
    requires GoodTail(l) && (l.path != "" ==> ParseUrlChar(s, l.path[0]) == Path)
    ensures From(s, l.path) == (if l.path == "" then s else Path) && Outers(s, l.path) == Marks(PATH, l.path)
  {
    hide ParseUrlChar, PartOf, From, Outers, GoodTail;
    TailStays(l);
    TailParts();
    StaysRun(s, Path, l.path);
  }

  lemma FragmentRun(s: State, l: Tail)
    requires GoodTail(l) && (l.hashes > 0 ==> s.Path? || s.Query? || s.QueryStart?)
    ensures From(s, Hashes(l.hashes) + l.fragment) ==
            (if l.hashes == 0 then s else if l.fragment == "" then FragmentStart else Fragment)
    ensures Outers(s, Hashes(l.hashes) + l.fragment) == Rep(None, l.hashes) + Marks(FRAGMENT, l.fragment)
  {
    hide ParseUrlChar, PartOf, Stays, From, Outers;
    TailStays(l);
    TailParts();
    NothingRun(s);
    if l.hashes > 0 {
      StaysRun(s, FragmentStart, Hashes(l.hashes));
      StaysRun(FragmentStart, Fragment, l.fragment);
      FromConcat(s, Hashes(l.hashes), l.fragment);
    } else {
      assert Hashes(l.hashes) + l.fragment == "";
    }
  }

  lemma TailRun(s: State, l: Tail)
    requires GoodTail(l) && (s.Server? || s.SpacesBeforeUrl?)
    requires l.path != "" ==> l.path[0] == '/' || (l.path[0] == '*' && s.SpacesBeforeUrl?)
    requires s.SpacesBeforeUrl? ==> l.path != ""
    ensures InnerUrl(From(s, TailText(l)))
    ensures Outers(s, TailText(l)) == TailMarks(l)
  {
    hide ParseUrlChar, PartOf, From, Outers, GoodTail, Hashes;
    TailParts();
    PathRun(s, l);
    var p := if l.path == "" then s else Path;
    QueryRun(p, l);
    TailHashes(l);
    FragmentRun(Queried(p, l.query), l);
    FromConcat(p, QuerySuffix(l.query), Hashes(l.hashes) + l.fragment);
    FromConcat(s, l.path, QuerySuffix(l.query) + (Hashes(l.hashes) + l.fragment));
  }

  lemma TailHashes(l: Tail)
    requires GoodTail(l)
    ensures l.hashes > 0 ==> l.path != "" || l.query.Some?
  {
  }

  lemma TextOuter(t: Target, connect: bool)
    requires WellFormed(t, connect)
    ensures InnerUrl(From(StartState(connect), Text(t)))
    ensures Outers(StartState(connect), Text(t)) ==
            PrefixMarks(t) + (Rep(Some(HOST), |Authority(t)|) + RestMarks(t))
  {
    hide ParseUrlChar, PartOf, From, Outers, GoodTail, GoodOrigin, TailText, TailMarks, ServerText, ServerBytes, Prefix,
      PrefixMarks;
    var s0 := StartState(connect);
    var s1 := if t.origin.None? then SpacesBeforeUrl else ServerStart;
    var s2 := if t.origin.None? then SpacesBeforeUrl else Server;
    PrefixRun(t, connect);
    NothingRun(s1);
    if t.origin.Some? {
      AuthorityBytes(t.origin.value);
      ServerRun(Authority(t));
    }
    TailRun(s2, t.tail);
    FromConcat(s1, Authority(t), Rest(t));
    FromConcat(s0, Prefix(t), Authority(t) + Rest(t));
  }

  // ----- the inner automaton on strings -----

  function HostFrom(s: HostState, part: string): HostState {
    if part == "" then s else HostChar(HostFrom(s, part[..|part| - 1]), part[|part| - 1])
  }

  function HostOwners(s: HostState, part: string): (r: Owners)
    ensures |r| == |part|
  {
    if part == "" then [] else HostOwners(s, part[..|part| - 1]) + [HostPart(HostFrom(s, part))]
  }

  lemma {:induction false} HostConcat(s: HostState, a: string, b: string)
    ensures HostFrom(s, a + b) == HostFrom(HostFrom(s, a), b)
    ensures HostOwners(s, a + b) == HostOwners(s, a) + HostOwners(HostFrom(s, a), b)
  {
    hide HostChar, HostPart;
    if b == "" {
      assert a + b == a;
    } else {
      assert (a + b)[..|a + b| - 1] == a + b[..|b| - 1];
      HostConcat(s, a, b[..|b| - 1]);
    }
  }

  ghost predicate HostStays(s: HostState, r: HostState, part: string) {
    part != "" ==> HostChar(s, part[0]) == r && forall i | 1 <= i < |part| :: HostChar(r, part[i]) == r
  }

  lemma {:induction false} HostStaysRun(s: HostState, r: HostState, part: string)
    requires HostStays(s, r, part)
    ensures HostFrom(s, part) == (if part == "" then s else r) && HostOwners(s, part) == Rep(HostPart(r), |part|)
  {
    hide HostChar, HostPart;
    if part != "" {
      var init := part[..|part| - 1];
      HostStaysRun(s, r, init);
    }
  }

  lemma HostOneRun(s: HostState, ch: char)
    ensures HostFrom(s, [ch]) == HostChar(s, ch) && HostOwners(s, [ch]) == [HostPart(HostChar(s, ch))]
  {
    hide HostChar, HostPart;
    assert [ch][..0] == "" && [ch][0] == ch && HostFrom(s, "") == s && HostOwners(s, "") == [];
  }

  lemma NoHostBytes(s: HostState)
    ensures HostFrom(s, "") == s && HostOwners(s, "") == []
  {
  }

  lemma SiteStays(h: Site)
    requires GoodSite(h)
    ensures h.Name? ==> HostStays(HostStart, Host, h.name)
    ensures h.Literal? ==> HostStays(V6Start, V6, h.address)
    ensures h.Literal? && h.zone.Some? ==> HostStays(ZoneStart, Zone, h.zone.value)
  {
  }

  lemma SiteParts()
    ensures HostChar(UserInfoStart, '@') == HostChar(UserInfo, '@') == HostStart
    ensures HostChar(HostStart, '[') == V6Start && HostChar(V6, '%') == ZoneStart
    ensures HostChar(V6, ']') == HostChar(Zone, ']') == V6End
    ensures HostChar(Host, ':') == HostChar(V6End, ':') == PortStart
    ensures HostPart(UserInfo) == Some(USERINFO) && HostPart(Port) == Some(PORT)
    ensures HostPart(Host) == HostPart(V6) == HostPart(Zone) == HostPart(ZoneStart) == Some(HOST)
    ensures HostPart(HostStart) == HostPart(V6Start) == HostPart(V6End) == HostPart(PortStart) == None
  {
  }

  lemma LiteralRun(h: Site)
    requires GoodSite(h) && h.Literal?
    ensures HostFrom(V6Start, Inside(h)) == (if h.zone.None? then V6 else Zone)
    ensures HostOwners(V6Start, Inside(h)) == Marks(HOST, Inside(h))
  {
    SiteStays(h);
    assert h.address != "" && (h.zone.Some? ==> h.zone.value != "");
    hide HostChar, HostPart, HostStays, HostFrom, HostOwners, GoodSite;
    SiteParts();
    HostStaysRun(V6Start, V6, h.address);
    if h.zone.Some? {
      HostOneRun(V6, '%');
      HostStaysRun(ZoneStart, Zone, h.zone.value);
      HostConcat(V6, "%", h.zone.value);
    } else {
      NoHostBytes(V6);
    }
    HostConcat(V6Start, h.address, ZoneSuffix(h.zone));
  }

  lemma SiteRun(h: Site)
    requires GoodSite(h)
    ensures HostFrom(HostStart, SiteText(h)) == (if h.Name? then Host else V6End)
    ensures HostOwners(HostStart, SiteText(h)) == SiteMarks(h)
  {
    if h.Name? {
      SiteStays(h);
      hide HostChar, HostPart, HostStays, HostFrom, HostOwners;
      SiteParts();
      HostStaysRun(HostStart, Host, h.name);
    } else {
      hide HostChar, HostPart, HostStays, HostFrom, HostOwners, GoodSite, Inside;
      SiteParts();
      LiteralRun(h);
      var s := if h.zone.None? then V6 else Zone;
      HostOneRun(s, ']');
      HostConcat(V6Start, Inside(h), "]");
      HostOneRun(HostStart, '[');
      HostConcat(HostStart, "[", Inside(h) + "]");
    }
  }

  lemma UserStays(user: string)
    requires UserText(user)
    ensures HostStays(UserInfoStart, UserInfo, user)
  {
  }

  lemma PortStays(port: string)
    requires PortText(port)
    ensures HostStays(PortStart, Port, port)
  {
  }

  lemma PortRun(s: HostState, port: string)
    requires PortText(port) && (s.Host? || s.V6End?)
    ensures HostFrom(s, After(":", port)) == (if port == "" then s else Port)
    ensures HostOwners(s, After(":", port)) == MarksAfter(PORT, port)
  {
    PortStays(port);
    hide HostChar, HostPart, HostStays, HostFrom, HostOwners;
    SiteParts();
    if port != "" {
      HostStaysRun(PortStart, Port, port);
      HostOneRun(s, ':');
      HostConcat(s, ":", port);
    } else {
      NoHostBytes(s);
    }
  }

  lemma UserPrefixRun(user: Option<string>)
    requires user.Some? ==> UserText(user.value)
    ensures HostFrom(if user.None? then HostStart else UserInfoStart, UserPrefix(user)) == HostStart
    ensures HostOwners(if user.None? then HostStart else UserInfoStart, UserPrefix(user)) == UserMarks(user)
  {
    if user.Some? {
      UserStays(user.value);
      hide HostChar, HostPart, HostStays, HostFrom, HostOwners;
      SiteParts();
      HostStaysRun(UserInfoStart, UserInfo, user.value);
      var s := if user.value == "" then UserInfoStart else UserInfo;
      HostOneRun(s, '@');
      HostConcat(UserInfoStart, user.value, "@");
    } else {
      NoHostBytes(HostStart);
    }
  }

  /** The inner automaton finds user information, host and port. */
  lemma AuthorityInner(o: Origin)
    requires GoodOrigin(o)
    ensures var s := if o.user.None? then HostStart else UserInfoStart;
      Complete(HostFrom(s, ServerText(o))) && HostOwners(s, ServerText(o)) == ServerMarks(o)
  {
    hide HostChar, HostPart, HostFrom, HostOwners, SiteText, SiteMarks, GoodSite, UserPrefix, UserMarks, After,
      MarksAfter;
    UserPrefixRun(o.user);
    SiteRun(o.site);
    var h := if o.site.Name? then Host else V6End;
    PortRun(h, o.port);
    HostConcat(HostStart, SiteText(o.site), After(":", o.port));
    var s := if o.user.None? then HostStart else UserInfoStart;
    HostConcat(s, UserPrefix(o.user), SiteText(o.site) + After(":", o.port));
  }

  // ----- the splitter on the whole text -----

  lemma {:induction false} InnerFrom(url: string, connect: bool, a: nat, e: nat, p: nat)
    requires Region(url, connect, a, e) && a <= p <= e
    ensures Inner(url, connect, p) == HostFrom(Inner(url, connect, a), url[a..p])
    ensures forall i | a <= i < p :: Owner(url, connect, i) == HostOwners(Inner(url, connect, a), url[a..p])[i - a]
  {
    hide HostChar, HostPart, Outer;
    if a < p {
      InnerFrom(url, connect, a, e, p - 1);
      assert url[a..p][..p - 1 - a] == url[a..p - 1];
      InnerNext(url, connect, a, e, p - 1);
      assert Outer(url, connect, p - 1) == Some(HOST);
    }
  }

  lemma {:induction false} FoundFrom(url: string, connect: bool, m: nat, n: nat)
    requires 0 < m <= n <= |url| && Walk(url, connect, m).ServerWithAt?
    ensures FoundAt(url, connect, n)
  {
    if m < n {
      FoundFrom(url, connect, m, n - 1);
    }
  }

  lemma {:induction false} NotFound(url: string, connect: bool, n: nat)
    requires n <= |url| && forall m | 0 < m <= n :: !Walk(url, connect, m).ServerWithAt?
    ensures !FoundAt(url, connect, n)
  {
    if n > 0 {
      NotFound(url, connect, n - 1);
    }
  }

  lemma AtOnly(s: State, ch: char)
    ensures ParseUrlChar(s, ch).ServerWithAt? ==> ch == '@'
  {
  }

  /** User information is looked for exactly when there is an '@'. */
  lemma TextFound(t: Target, connect: bool, url: string, a: nat, e: nat)
    requires WellFormed(t, connect) && url == Text(t) && a == |Prefix(t)| && e == a + |Authority(t)| &&
      Region(url, connect, a, e)
    ensures FoundAt(url, connect, |url|) <==> t.origin.Some? && t.origin.value.user.Some?
  {
    hide ParseUrlChar, Stays, Walk, ServerText, TailText, FoundAt, GoodOrigin, GoodTail, From;
    if t.origin.Some? && t.origin.value.user.Some? {
      var user := t.origin.value.user.value + "@";
      var n := a + |user|;
      ServerBegins(t.origin.value);
      assert url[..n] == Prefix(t) + user;
      WalkFrom(url, connect, n);
      UserRun(t, connect);
      FoundFrom(url, connect, n, |url|);
    } else {
      if t.origin.Some? {
        AuthorityBytes(t.origin.value);
      }
      forall m | 0 < m <= |url|
        ensures !Walk(url, connect, m).ServerWithAt?
      {
        WalkNext(url, connect, m);
        AtOnly(Walk(url, connect, m - 1), url[m - 1]);
        OuterAt(url, connect, m);
        if a <= m - 1 < e {
          assert url[m - 1] == Authority(t)[m - 1 - a];
        }
      }
      NotFound(url, connect, |url|);
    }
  }

  lemma WalkNext(url: string, connect: bool, m: nat)
    requires 0 < m <= |url|
    ensures Walk(url, connect, m) == ParseUrlChar(Walk(url, connect, m - 1), url[m - 1])
  {
  }

  lemma OuterAt(url: string, connect: bool, m: nat)
    requires 0 < m <= |url|
    ensures Walk(url, connect, m).ServerWithAt? ==> Outer(url, connect, m - 1) == Some(HOST)
  {
    hide ParseUrlChar;
  }

  lemma ServerBegins(o: Origin)
    requires o.user.Some?
    ensures var x := o.user.value + "@"; |x| <= |ServerText(o)| && ServerText(o)[..|x|] == x
  {
  }

  lemma UserRun(t: Target, connect: bool)
    requires WellFormed(t, connect) && t.origin.Some? && t.origin.value.user.Some?
    ensures From(StartState(connect), Prefix(t) + (t.origin.value.user.value + "@")) == ServerWithAt
  {
    var user := t.origin.value.user.value + "@";
    AuthorityBytes(t.origin.value);
    hide ParseUrlChar, PartOf, From, Outers, GoodOrigin, GoodTail;
    PrefixRun(t, connect);
    ServerRun(user);
    FromConcat(StartState(connect), Prefix(t), user);
  }

  /** The outer automaton accepts the text, and the authority is its server part. */
  lemma TextRegion(t: Target, connect: bool)
    requires WellFormed(t, connect)
    ensures var url := Text(t); var a := |Prefix(t)|;
      && !Walk(url, connect, |url|).Dead? && Region(url, connect, a, a + |Authority(t)|)
      && (forall i | 0 <= i < |url| && !(a <= i < a + |Authority(t)|) :: Outer(url, connect, i) == TextMarks(t)[i])
      && |TextMarks(t)| == |url|
  {
    hide Walk, Outer, From, Outers, Authority, Rest, RestMarks, AuthorityMarks, Prefix, PrefixMarks, WellFormed;
    var url := Text(t);
    TextOuter(t, connect);
    WalkFrom(url, connect, |url|);
    assert url[..|url|] == url;
    var owners := OuterUpTo(url, connect, |url|);
    assert owners[..|url|] == owners;
    NoHostMarks(t);
    var a := |Prefix(t)|;
    forall i | 0 <= i < |url|
      ensures Outer(url, connect, i) == Some(HOST) <==> a <= i < a + |Authority(t)|
      ensures !(a <= i < a + |Authority(t)|) ==> Outer(url, connect, i) == TextMarks(t)[i]
    {
      assert Outer(url, connect, i) == owners[i];
    }
  }

  lemma NoHostMarks(t: Target)
    ensures |RestMarks(t)| == |Rest(t)| && |AuthorityMarks(t)| == |Authority(t)| && |PrefixMarks(t)| == |Prefix(t)|
    ensures forall i | 0 <= i < |RestMarks(t)| :: RestMarks(t)[i] != Some(HOST)
    ensures forall i | 0 <= i < |PrefixMarks(t)| :: PrefixMarks(t)[i] != Some(HOST)
  {
    hide RestMarks, AuthorityMarks, PrefixMarks, Rest, Authority, Prefix, PartAt, PartText;
    PrefixMarksAt(t, HOST);
    AuthorityMarksAt(t, HOST);
    RestMarksAt(t, HOST);
  }

  /** The owners found are those of the parts. */
  lemma TextOwners(t: Target, connect: bool)
    requires WellFormed(t, connect)
    ensures AllOwners(Text(t), connect) == TextMarks(t)
    ensures t.origin.Some? ==> Complete(Inner(Text(t), connect, |Text(t)|))
  {
    hide Walk, HostFrom, HostOwners, WellFormed, FoundAt, ServerText, ServerMarks, TailText, TailMarks, Prefix,
      PrefixMarks, Complete;
    var url := Text(t);
    var a := |Prefix(t)|;
    var e := a + |Authority(t)|;
    TextRegion(t, connect);
    NoHostMarks(t);
    TextFound(t, connect, url, a, e);
    InnerSkips(url, connect, 0, a);
    InnerFrom(url, connect, a, e, e);
    InnerSkips(url, connect, e, |url|);
    assert url[a..e] == Authority(t);
    if t.origin.Some? {
      GoodInside(t, connect);
      AuthorityInner(t.origin.value);
    }
    forall i | 0 <= i < |url|
      ensures Owner(url, connect, i) == TextMarks(t)[i]
    {
      if a <= i < e {
        assert TextMarks(t)[i] == AuthorityMarks(t)[i - a];
      }
    }
  }

  lemma GoodInside(t: Target, connect: bool)
    requires WellFormed(t, connect) && t.origin.Some?
    ensures GoodOrigin(t.origin.value)
  {
  }

  // ----- parts and fields -----

  /** A part of the authority. */
  function OriginPart(o: Origin, f: Field): string {
    match f
    case SCHEMA => ""
    case USERINFO => if o.user.Some? then o.user.value else ""
    case HOST => Inside(o.site)
    case PORT => o.port
    case PATH => ""
    case QUERY => ""
    case FRAGMENT => ""
  }

  function TailPart(l: Tail, f: Field): string {
    if f.QUERY? then if l.query.Some? then l.query.value else ""
    else if f.FRAGMENT? then l.fragment else l.path
  }

  /** A user that is empty, and a query that is empty, leave no field. */
  function PartText(t: Target, f: Field): string {
    match f
    case SCHEMA => if t.origin.Some? then t.origin.value.schema else ""
    case USERINFO => if t.origin.Some? then OriginPart(t.origin.value, f) else ""
    case HOST => if t.origin.Some? then OriginPart(t.origin.value, f) else ""
    case PORT => if t.origin.Some? then OriginPart(t.origin.value, f) else ""
    case PATH => TailPart(t.tail, f)
    case QUERY => TailPart(t.tail, f)
    case FRAGMENT => TailPart(t.tail, f)
  }

  /** Where such a part starts in the authority. */
  function OriginAt(o: Origin, f: Field): nat {
    var h := |UserPrefix(o.user)|;
    match f
    case SCHEMA => 0
    case USERINFO => 0
    case HOST => h + if o.site.Literal? then 1 else 0
    case PORT => h + |SiteText(o.site)| + 1
    case PATH => 0
    case QUERY => 0
    case FRAGMENT => 0
  }

  function TailAt(l: Tail, f: Field): nat {
    if f.QUERY? then |l.path| + 1
    else if f.FRAGMENT? then |l.path| + |QuerySuffix(l.query)| + l.hashes else 0
  }

  function PartAt(t: Target, f: Field): nat {
    if InAuthority(f) then |Prefix(t)| + if t.origin.Some? then OriginAt(t.origin.value, f) else 0
    else if InRest(f) then |Prefix(t)| + |Authority(t)| + TailAt(t.tail, f) else 0
  }

  lemma PartIn(t: Target, f: Field)
    requires PartText(t, f) != ""
    ensures PartAt(t, f) + |PartText(t, f)| <= |Text(t)|
    ensures Text(t)[PartAt(t, f)..PartAt(t, f) + |PartText(t, f)|] == PartText(t, f)
  {
    hide Authority, Rest, PartText, Prefix, OriginAt, TailAt;
    var a := Prefix(t);
    var e := Authority(t);
    assert Text(t)[..|a|] == a && Text(t)[|a|..|a| + |e|] == e && Text(t)[|a| + |e|..] == Rest(t);
    if InAuthority(f) {
      AuthorityIn(t, f);
    } else if InRest(f) {
      RestIn(t, f);
    } else {
      SchemaIn(t, f);
    }
  }

  lemma SchemaIn(t: Target, f: Field)
    requires PartText(t, f) != "" && f.SCHEMA?
    ensures |PartText(t, f)| <= |Prefix(t)| && Prefix(t)[..|PartText(t, f)|] == PartText(t, f)
  {
  }

  lemma AuthorityIn(t: Target, f: Field)
    requires PartText(t, f) != "" && InAuthority(f)
    ensures t.origin.Some?
    ensures var k := OriginAt(t.origin.value, f);
      k + |PartText(t, f)| <= |Authority(t)| && Authority(t)[k..k + |PartText(t, f)|] == PartText(t, f)
  {
    hide OriginAt, OriginPart, ServerText;
    ServerIn(t.origin.value, f);
  }

  lemma ServerIn(o: Origin, f: Field)
    requires OriginPart(o, f) != "" && InAuthority(f)
    ensures var k := OriginAt(o, f);
      k + |OriginPart(o, f)| <= |ServerText(o)| && ServerText(o)[k..k + |OriginPart(o, f)|] == OriginPart(o, f)
  {
    hide Inside, SiteText, ServerText, UserPrefix, After;
    ServerCuts(o);
    UserLength(o.user);
    SiteStart(o.site);
    var site, port := SiteText(o.site), After(":", o.port);
    if f.USERINFO? {
      Cut(ServerText(o), "", o.user.value, "@" + (site + port));
    } else if f.PORT? {
      Cut(ServerText(o), UserPrefix(o.user) + (site + ":"), o.port, "");
    } else if o.site.Name? {
      Cut(ServerText(o), UserPrefix(o.user), Inside(o.site), port);
    } else {
      Cut(ServerText(o), UserPrefix(o.user) + "[", Inside(o.site), "]" + port);
    }
  }

  lemma ServerCuts(o: Origin)
    ensures var user, site, port := UserPrefix(o.user), SiteText(o.site), After(":", o.port);
      && (o.user.Some? ==> ServerText(o) == "" + o.user.value + ("@" + (site + port)))
      && (o.port != "" ==> ServerText(o) == user + (site + ":") + o.port + "")
      && (o.site.Name? ==> ServerText(o) == user + Inside(o.site) + port)
      && (o.site.Literal? ==> ServerText(o) == user + "[" + Inside(o.site) + ("]" + port))
  {
    hide ZoneSuffix;
  }

  lemma UserLength(user: Option<string>)
    ensures user.None? ==> UserPrefix(user) == ""
  {
  }

  lemma SiteStart(h: Site)
    ensures h.Name? ==> Inside(h) == SiteText(h)
  {
  }

  lemma Cut(s: string, x: string, part: string, y: string)
    requires s == x + part + y
    ensures |x| + |part| <= |s| && s[|x|..|x| + |part|] == part
  {
  }

  lemma RestIn(t: Target, f: Field)
    requires PartText(t, f) != "" && InRest(f)
    ensures var k := TailAt(t.tail, f);
      k + |PartText(t, f)| <= |Rest(t)| && Rest(t)[k..k + |PartText(t, f)|] == PartText(t, f)
  {
    hide TailAt, TailPart, TailText;
    TailIn(t.tail, f);
  }

  lemma TailIn(l: Tail, f: Field)
    requires TailPart(l, f) != "" && InRest(f)
    ensures var k := TailAt(l, f);
      k + |TailPart(l, f)| <= |TailText(l)| && TailText(l)[k..k + |TailPart(l, f)|] == TailPart(l, f)
  {
    hide QuerySuffix, Hashes, TailText;
    TailCuts(l);
    var query, hashes := QuerySuffix(l.query), Hashes(l.hashes);
    if f.QUERY? {
      Cut(TailText(l), l.path + "?", l.query.value, hashes + l.fragment);
    } else if f.FRAGMENT? {
      Cut(TailText(l), l.path + query + hashes, l.fragment, "");
    } else {
      Cut(TailText(l), "", l.path, query + (hashes + l.fragment));
    }
  }

  lemma TailCuts(l: Tail)
    ensures var query, hashes := QuerySuffix(l.query), Hashes(l.hashes);
      && TailText(l) == "" + l.path + (query + (hashes + l.fragment))
      && TailText(l) == l.path + query + hashes + l.fragment + ""
      && |hashes| == l.hashes
      && (l.query.Some? ==> TailText(l) == l.path + "?" + l.query.value + (hashes + l.fragment))
  {
  }

  predicate InAuthority(f: Field) {
    f.USERINFO? || f.HOST? || f.PORT?
  }

  predicate InRest(f: Field) {
    f.PATH? || f.QUERY? || f.FRAGMENT?
  }

  /** Where the marks are those of f, relative to the first of them. */
  ghost predicate MarkedAt(marks: Owners, f: Field, k: int, n: nat) {
    forall i | 0 <= i < |marks| :: marks[i] == Some(f) <==> k <= i < k + n
  }

  lemma AuthorityMarksAt(t: Target, f: Field)
    ensures |AuthorityMarks(t)| == |Authority(t)|
    ensures InAuthority(f) ==> MarkedAt(AuthorityMarks(t), f, PartAt(t, f) - |Prefix(t)|, |PartText(t, f)|)
    ensures !InAuthority(f) ==> MarkedAt(AuthorityMarks(t), f, 0, 0)
  {
    hide Prefix, OriginAt, ServerMarks, ServerText;
    if t.origin.Some? {
      ServerMarksAt(t.origin.value, f);
    }
  }

  lemma ServerMarksAt(o: Origin, f: Field)
    ensures |ServerMarks(o)| == |ServerText(o)| && MarkedAt(ServerMarks(o), f, OriginAt(o, f), |OriginPart(o, f)|)
  {
    hide SiteMarks, UserMarks, MarksAfter, SiteText, UserPrefix, After, Inside;
    var x, y, z := UserMarks(o.user), SiteMarks(o.site), MarksAfter(PORT, o.port);
    UserMarksAt(o.user, f);
    SiteMarksAt(o.site, f);
    PortMarksAt(o.port, f);
    forall i | 0 <= i < |x| + |y| + |z|
      ensures ServerMarks(o)[i] == Some(f) <==> OriginAt(o, f) <= i < OriginAt(o, f) + |OriginPart(o, f)|
    {
      assert ServerMarks(o)[i] == if i < |x| then x[i] else if i < |x| + |y| then y[i - |x|] else z[i - |x| - |y|];
    }
  }

  lemma UserMarksAt(user: Option<string>, f: Field)
    ensures |UserMarks(user)| == |UserPrefix(user)|
    ensures MarkedAt(UserMarks(user), f, 0, if f.USERINFO? && user.Some? then |user.value| else 0)
    ensures user.Some? ==> |UserPrefix(user)| == |user.value| + 1
  {
  }

  lemma SiteMarksAt(h: Site, f: Field)
    ensures |SiteMarks(h)| == |SiteText(h)| == |Inside(h)| + if h.Name? then 0 else 2
    ensures MarkedAt(SiteMarks(h), f, if h.Name? then 0 else 1, if f.HOST? then |Inside(h)| else 0)
  {
    hide ZoneSuffix;
  }

  lemma PortMarksAt(port: string, f: Field)
    ensures |MarksAfter(PORT, port)| == |After(":", port)| == if port == "" then 0 else |port| + 1
    ensures MarkedAt(MarksAfter(PORT, port), f, 1, if f.PORT? then |port| else 0)
  {
  }

  lemma RestMarksAt(t: Target, f: Field)
    ensures |RestMarks(t)| == |Rest(t)|
    ensures InRest(f) ==> MarkedAt(RestMarks(t), f, PartAt(t, f) - (|Prefix(t)| + |Authority(t)|), |PartText(t, f)|)
    ensures !InRest(f) ==> MarkedAt(RestMarks(t), f, 0, 0)
  {
    hide Authority, Prefix, TailAt, TailMarks, TailText;
    TailMarksAt(t.tail, f);
  }

  lemma TailMarksAt(l: Tail, f: Field)
    ensures |TailMarks(l)| == |TailText(l)|
    ensures MarkedAt(TailMarks(l), f, TailAt(l, f), if InRest(f) then |TailPart(l, f)| else 0)
  {
    hide QueryMarks, QuerySuffix, Hashes;
    var x, y, z := Marks(PATH, l.path), QueryMarks(l.query), Rep(None, l.hashes) + Marks(FRAGMENT, l.fragment);
    QueryMarksAt(l.query, f);
    forall i | 0 <= i < |TailMarks(l)|
      ensures TailMarks(l)[i] == Some(f) <==>
        InRest(f) && TailAt(l, f) <= i < TailAt(l, f) + |TailPart(l, f)|
    {
      assert TailMarks(l)[i] == if i < |x| then x[i] else if i < |x| + |y| then y[i - |x|] else z[i - |x| - |y|];
    }
  }

  lemma QueryMarksAt(query: Option<string>, f: Field)
    ensures |QueryMarks(query)| == |QuerySuffix(query)| == if query.None? then 0 else |query.value| + 1
    ensures MarkedAt(QueryMarks(query), f, 1, if f.QUERY? && query.Some? then |query.value| else 0)
  {
  }

  lemma PrefixMarksAt(t: Target, f: Field)
    ensures |PrefixMarks(t)| == |Prefix(t)| && MarkedAt(PrefixMarks(t), f, 0, if f.SCHEMA? then |PartText(t, f)| else 0)
  {
  }

  lemma PartRanges(t: Target, f: Field)
    ensures f.SCHEMA? ==> PartAt(t, f) == 0 && |PartText(t, f)| <= |Prefix(t)|
    ensures InAuthority(f) && PartText(t, f) != "" ==>
      |Prefix(t)| <= PartAt(t, f) && PartAt(t, f) + |PartText(t, f)| <= |Prefix(t)| + |Authority(t)|
    ensures InRest(f) ==> |Prefix(t)| + |Authority(t)| <= PartAt(t, f)
  {
  }

  /** The marks of a field are where its part is. */
  lemma MarksAt(t: Target, f: Field)
    ensures |TextMarks(t)| == |Text(t)|
    ensures forall i | 0 <= i < |TextMarks(t)| ::
      TextMarks(t)[i] == Some(f) <==> PartAt(t, f) <= i < PartAt(t, f) + |PartText(t, f)|
  {
    hide Authority, Rest, Prefix, AuthorityMarks, RestMarks, PrefixMarks, PartAt, PartText;
    PrefixMarksAt(t, f);
    AuthorityMarksAt(t, f);
    RestMarksAt(t, f);
    PartRanges(t, f);
    var x, y, z := PrefixMarks(t), AuthorityMarks(t), RestMarks(t);
    forall i | 0 <= i < |TextMarks(t)|
      ensures TextMarks(t)[i] == Some(f) <==> PartAt(t, f) <= i < PartAt(t, f) + |PartText(t, f)|
    {
      assert TextMarks(t)[i] == if i < |x| then x[i] else if i < |x| + |y| then y[i - |x|] else z[i - |x| - |y|];
    }
  }

  /** The fields of a table of the text are exactly the parts that are not empty. */
  lemma PartsFound(t: Target, connect: bool, table: Table)
    requires WellFormed(t, connect) && Tiles(table, AllOwners(Text(t), connect))
    ensures forall f: Field :: f in table <==> PartText(t, f) != ""
    ensures forall f: Field | f in table ::
      table[f].off + table[f].len <= |Text(t)| && Text(t)[table[f].off..table[f].off + table[f].len] == PartText(t, f)
  {
    hide Text, TextMarks, PartText, PartAt, Tiles;
    TextOwners(t, connect);
    TilesOwns(table, TextMarks(t));
    forall f: Field
      ensures f in table <==> PartText(t, f) != ""
      ensures f in table ==>
        && table[f].off + table[f].len <= |Text(t)|
        && Text(t)[table[f].off..table[f].off + table[f].len] == PartText(t, f)
    {
      FieldFound(t, table, f);
    }
  }

  lemma FieldFound(t: Target, table: Table, f: Field)
    requires Tiles(table, TextMarks(t)) && (Owns(TextMarks(t), f) <==> f in table)
    ensures f in table <==> PartText(t, f) != ""
    ensures f in table ==>
        && table[f].off + table[f].len <= |Text(t)|
        && Text(t)[table[f].off..table[f].off + table[f].len] == PartText(t, f)
  {
    hide Text, TextMarks, PartText, PartAt, Tiles;
    var owners, p, n := TextMarks(t), PartAt(t, f), |PartText(t, f)|;
    MarksAt(t, f);
    if n > 0 {
      PartIn(t, f);
      assert owners[p] == Some(f) && owners[p + n - 1] == Some(f);
      EntryOf(table, owners, f);
      assert owners[table[f].off] == Some(f) && owners[table[f].off + table[f].len - 1] == Some(f);
    }
  }

  // ----- what is accepted -----

  /** The digits that `strtoul` reads at the port: those in memory count if the port ends the buffer. */
  function PortDigits(t: Target, beyond: string): (r: string)
    requires t.origin.Some?
    ensures PortText(t.origin.value.port) ==> PortText(r)
  {
    t.origin.value.port + if Rest(t) == "" then Lead(beyond) else ""
  }

  predicate PortAllowed(t: Target, beyond: string)
    requires t.origin.Some? ==> PortText(t.origin.value.port)
  {
    t.origin.Some? && t.origin.value.port != "" ==> Decimal(PortDigits(t, beyond)) <= 0xFFFF
  }

  lemma AtPort(t: Target)
    requires t.origin.Some? && t.origin.value.port != ""
    ensures var k := PartAt(t, PORT); k <= |Text(t)| && Text(t)[k..] == t.origin.value.port + Rest(t)
  {
    hide Prefix, Rest, SiteText, UserPrefix, ServerText;
    var o := t.origin.value;
    var before := Prefix(t) + (UserPrefix(o.user) + (SiteText(o.site) + ":"));
    ServerPort(o);
    assert Text(t) == before + (o.port + Rest(t));
  }

  lemma ServerPort(o: Origin)
    requires o.port != ""
    ensures ServerText(o) == UserPrefix(o.user) + (SiteText(o.site) + ":") + o.port
  {
    hide SiteText, UserPrefix;
  }

  lemma RestFirst(t: Target, connect: bool)
    requires WellFormed(t, connect) && t.origin.Some? && Rest(t) != ""
    ensures !IsNum(Rest(t)[0])
  {
    var l := t.tail;
    if l.path != "" {
      assert Rest(t)[0] == l.path[0];
    } else {
      assert Rest(t)[0] == QuerySuffix(l.query)[0];
    }
  }

  lemma LeadOf(s: string, digits: string, rest: string)
    requires s == digits + rest && PortText(digits) && (rest != "" ==> !IsNum(rest[0]))
    ensures Lead(s) == digits
  {
    LeadIs(s, |digits|);
  }

  lemma {:induction false} LeadJoin(digits: string, s: string)
    requires PortText(digits)
    ensures Lead(digits + s) == digits + Lead(s)
    decreases |digits|
  {
    if digits == "" {
      assert digits + s == s && digits + Lead(s) == Lead(s);
    } else {
      LeadJoin(digits[1..], s);
      assert (digits + s)[1..] == digits[1..] + s;
    }
  }

  lemma PortLead(t: Target, connect: bool, beyond: string)
    requires WellFormed(t, connect) && t.origin.Some? && t.origin.value.port != ""
    ensures Lead(t.origin.value.port + Rest(t) + beyond) == PortDigits(t, beyond)
  {
    hide Rest, GoodTail;
    var port := t.origin.value.port;
    if Rest(t) == "" {
      assert port + Rest(t) + beyond == port + beyond;
      LeadJoin(port, beyond);
    } else {
      RestFirst(t, connect);
      assert (Rest(t) + beyond)[0] == Rest(t)[0];
      LeadOf(port + Rest(t) + beyond, port, Rest(t) + beyond);
    }
  }

  /** The number at the port is that of the digits there, but a number that is too large for it. */
  lemma TextPort(t: Target, connect: bool, beyond: string)
    requires WellFormed(t, connect) && t.origin.Some? && t.origin.value.port != ""
    ensures var n := Decimal(PortDigits(t, beyond));
      StrToUL(Text(t)[FirstOf(AllOwners(Text(t), connect), PORT)..] + beyond) == if n > ULONG_MAX then ULONG_MAX else n
  {
    hide Text, TextMarks, StrToUL, Rest, PartAt, AllOwners, PortDigits, Lead, FirstOf, GoodTail;
    TextOwners(t, connect);
    MarksAt(t, PORT);
    var k := PartAt(t, PORT);
    AtPort(t);
    PartIn(t, PORT);
    FirstIs(TextMarks(t), PORT, k);
    PortLead(t, connect, beyond);
    var s := Text(t)[k..] + beyond;
    assert s[0] == t.origin.value.port[0];
    NumberAtDigit(s);
  }

  /** A target for CONNECT: a host and a port, and nothing else that leaves a field. */
  predicate HostAndPort(t: Target) {
    && t.origin.Some? && t.origin.value.port != "" && (t.origin.value.user.Some? ==> t.origin.value.user.value == "")
    && t.tail.path == "" && (t.tail.query.Some? ==> t.tail.query.value == "") && t.tail.fragment == ""
  }

  lemma FieldOwned(t: Target, connect: bool, f: Field)
    requires WellFormed(t, connect)
    ensures Owns(AllOwners(Text(t), connect), f) <==> PartText(t, f) != ""
  {
    hide Text, TextMarks, PartText, PartAt, AllOwners, WellFormed;
    TextOwners(t, connect);
    MarksAt(t, f);
    var owners := TextMarks(t);
    if PartText(t, f) != "" {
      PartIn(t, f);
      assert owners[PartAt(t, f)] == Some(f);
    }
    if Owns(owners, f) {
      var i :| 0 <= i < |owners| && owners[i] == Some(f);
    }
  }

  lemma OuterOwned(t: Target, connect: bool)
    requires WellFormed(t, connect)
    ensures var outer := OuterUpTo(Text(t), connect, |Text(t)|);
      (Owns(outer, HOST) <==> t.origin.Some?) && (Owns(outer, SCHEMA) ==> t.origin.Some?)
  {
    hide Text, TextMarks, PartText, PartAt, AllOwners, GoodOrigin, GoodTail, Outer, Walk, Prefix, Rest, ServerText;
    var url := Text(t);
    var outer := OuterUpTo(url, connect, |url|);
    var a := |Prefix(t)|;
    TextRegion(t, connect);
    if t.origin.Some? {
      AuthorityBytes(t.origin.value);
      assert outer[a] == Some(HOST);
    }
    if Owns(outer, SCHEMA) {
      var i :| 0 <= i < |url| && outer[i] == Some(SCHEMA);
      MarksAt(t, SCHEMA);
      SchemaPart(t);
    }
    if Owns(outer, HOST) {
      var i :| 0 <= i < |url| && outer[i] == Some(HOST);
    }
  }

  lemma SchemaPart(t: Target)
    ensures PartText(t, SCHEMA) != "" ==> t.origin.Some?
  {
  }

  lemma ConnectFields(t: Target)
    requires WellFormed(t, true)
    ensures HostAndPort(t) <==> forall f: Field :: PartText(t, f) != "" <==> f == HOST || f == PORT
  {
    hide GoodTail;
    if HostAndPort(t) {
      assert Inside(t.origin.value.site) != "";
    }
    if forall f: Field :: PartText(t, f) != "" <==> f == HOST || f == PORT {
      assert PartText(t, PORT) != "" && PartText(t, USERINFO) == "" && PartText(t, PATH) == "";
      assert PartText(t, QUERY) == "" && PartText(t, FRAGMENT) == "";
    }
  }

  /**
   A URL put together from well-formed parts is accepted exactly if the digits at its port are a port number and, for
   CONNECT, it is only a host and a port.
   */
  lemma Composed(t: Target, connect: bool, beyond: string)
    requires WellFormed(t, connect)
    ensures Accepts(Text(t), connect, beyond) <==> (connect ==> HostAndPort(t)) && PortAllowed(t, beyond)
  {
    hide Text, TextMarks, StrToUL, Rest, PartAt, AllOwners, Outer, Walk, Inner, Complete, FirstOf, OuterUpTo, PartText,
      GoodTail, GoodSite, HostAndPort, Owns, PortDigits;
    TextOwners(t, connect);
    TextRegion(t, connect);
    OuterOwned(t, connect);
    forall f: Field
      ensures Owns(AllOwners(Text(t), connect), f) <==> PartText(t, f) != ""
    {
      FieldOwned(t, connect, f);
    }
    if connect {
      ConnectFields(t);
    }
    PortPart(t);
    if PartText(t, PORT) != "" {
      TextPort(t, connect, beyond);
    }
  }

  lemma PortPart(t: Target)
    ensures PartText(t, PORT) != "" <==> t.origin.Some? && t.origin.value.port != ""
  {
  }
}
