/** Which apps can handle which intents for a context: the app directory and
    the running listeners, filtered and sorted. */
module Discovery {
  import opened Basics
  import opened Listeners
  import Apps

  // ---------- Result types ----------

  /** The characters that `str.strip` removes. */
  predicate IsSpace(c: char) {
    var n := c as int;
    9 <= n <= 13 || 28 <= n <= 32 || n == 133 || n == 160 || n == 5760 || 8192 <= n <= 8202
    || n == 8232 || n == 8233 || n == 8239 || n == 8287 || n == 12288
  }

  function StripLeft(s: string): string {
    if s != [] && IsSpace(s[0]) then StripLeft(s[1..]) else s
  }

  function StripRight(s: string): string {
    if s != [] && IsSpace(s[|s| - 1]) then StripRight(s[..|s| - 1]) else s
  }

  function Strip(s: string): string {
    StripRight(StripLeft(s))
  }

  /** `channel<...>`. */
  predicate IsTypedChannel(v: string) {
    |v| >= 9 && v[..8] == "channel<" && v[|v| - 1] == '>'
  }

  function MatchesResultType(requested: string, appResult: string): bool {
    if requested == "" then true
    else if appResult == "" then false
    else
      var req := Strip(requested);
      var app := Strip(appResult);
      if req == app then true
      else if req == "channel" && IsTypedChannel(app) then true
      else if IsTypedChannel(req) then app == req
      else false
  }

  /** The context type inside `channel<...>`, if there is one. */
  function TypedChannelContext(resultType: string): Option<string> {
    var v := Strip(resultType);
    if !IsTypedChannel(v) then None
    else
      var inner := Strip(v[8..|v| - 1]);
      if inner == "" then None else Some(inner)
  }

  /** Requests ask for anything, for one exact type, or for any channel; the
      branch for a typed request accepts nothing more. */
  lemma MatchesResultTypeIff(requested: string, appResult: string)
    ensures MatchesResultType(requested, appResult)
            <==> requested == ""
                 || (appResult != ""
                     && (Strip(requested) == Strip(appResult)
                         || (Strip(requested) == "channel" && IsTypedChannel(Strip(appResult)))))
  {
  }

  /** What satisfies a type that satisfies a request satisfies the request. */
  lemma MatchesResultTypeTransitive(a: string, b: string, c: string)
    requires MatchesResultType(a, b) && MatchesResultType(b, c) && b != ""
    ensures MatchesResultType(a, c)
  {
  }

  // ---------- The directory ----------

  /** A loosely typed field: absent, a string, a list whose non-string elements
      are None, or something else that may or may not count as true. */
  datatype Field = Missing | Text(text: string) | ListOf(items: seq<Option<string>>) | Other(truthy: bool)

  predicate Truthy(f: Field) {
    match f
    case Missing => false
    case Text(t) => t != ""
    case ListOf(items) => items != []
    case Other(truthy) => truthy
  }

  /** `a or b`. */
  function Or(a: Field, b: Field): Field {
    if Truthy(a) then a else b
  }

  function Strings(items: seq<Option<string>>): seq<string> {
    if items == [] then []
    else (if items[0].Some? then [items[0].value] else []) + Strings(items[1..])
  }

  datatype Entry =
    | Plain(intent: string)
    | Mapping(name: Field, intentField: Field, intentName: Field, contexts: Field, contextTypes: Field)
    | Unusable

  datatype AppRecord = AppRecord(id: string, intents: seq<Entry>, resultType: string)

  type ContextTypes = Option<seq<string>>

  /** An app offers an intent, perhaps only for some context types. */
  datatype Offer = Offer(intent: string, app: string, contexts: ContextTypes)

  function ContextsOf(f: Field): ContextTypes {
    match f
    case Text(t) => Some([t])
    case ListOf(items) => Some(Strings(items))
    case _ => None
  }

  function Normalize(e: Entry, app: string): Option<Offer> {
    match e
    case Plain(intent) => Some(Offer(intent, app, None))
    case Mapping(name, intentField, intentName, contexts, contextTypes) =>
      var n := Or(Or(name, intentField), intentName);
      if n.Text? && n.text != "" then Some(Offer(n.text, app, ContextsOf(Or(contexts, contextTypes)))) else None
    case Unusable => None
  }

  function OffersOf(app: string, entries: seq<Entry>): seq<Offer> {
    if entries == [] then []
    else
      var last := Normalize(entries[|entries| - 1], app);
      OffersOf(app, entries[..|entries| - 1]) + (if last.Some? then [last.value] else [])
  }

  /** Everything the directory offers, in directory order; apps without an id
      are skipped. */
  function DirectoryOffers(directory: seq<AppRecord>): seq<Offer> {
    if directory == [] then []
    else
      var app := directory[|directory| - 1];
      DirectoryOffers(directory[..|directory| - 1]) + (if app.id == "" then [] else OffersOf(app.id, app.intents))
  }

  /** The result type of each app in the directory, the last record winning. */
  function DirectoryResults(directory: seq<AppRecord>): map<string, string> {
    if directory == [] then map[]
    else
      var app := directory[|directory| - 1];
      var m := DirectoryResults(directory[..|directory| - 1]);
      if app.id == "" then m else m[app.id := app.resultType]
  }

  // ---------- What should be found ----------

  datatype Query = Query(
    directory: seq<AppRecord>,
    listeners: Table,
    instances: seq<Apps.AppInstance>,
    stored: map<string, string>,
    contextType: string,
    resultType: string,
    enforce: bool)

  /** The offer that counts: the last one the directory makes for the intent
      and app. */
  function LastOffer(offers: seq<Offer>, intent: string, app: string): Option<ContextTypes> {
    if offers == [] then None
    else
      var o := offers[|offers| - 1];
      if o.intent == intent && o.app == app then Some(o.contexts) else LastOffer(offers[..|offers| - 1], intent, app)
  }

  /** A listener claims an intent for the app of its registered instance. */
  predicate Claims(l: Listener, instances: seq<Apps.AppInstance>, intent: string, app: string) {
    && l.topic == OnIntent(intent) && intent != "" && l.instance != ""
    && Apps.Lookup(instances, l.instance).Some? && Apps.Lookup(instances, l.instance).value.appId == app && app != ""
  }

  predicate Claimed(q: Query, intent: string, app: string) {
    exists l :: l in q.listeners && Claims(l, q.instances, intent, app)
  }

  /** The context types an app takes for an intent, if it handles it at all: the
      directory's last word, or no restriction for a mere listener. */
  function Candidate(q: Query, intent: string, app: string): Option<ContextTypes> {
    var offered := LastOffer(DirectoryOffers(q.directory), intent, app);
    if offered.Some? then offered else if Claimed(q, intent, app) then Some(None) else None
  }

  /** The app's result type as recorded in the directory or else in storage. */
  function ResultOf(q: Query, app: string): string {
    var results := DirectoryResults(q.directory);
    if app in results then results[app] else if app in q.stored then q.stored[app] else ""
  }

  /** The context filter, applied when it is enforced and the app restricts its
      context types. */
  predicate ContextAllowed(q: Query, contexts: ContextTypes) {
    q.enforce && q.contextType != "" && contexts.Some? ==> q.contextType in contexts.value
  }

  /** A typed channel result must be typed with the requested context. */
  predicate ChannelAllowed(q: Query, app: string) {
    var typed := TypedChannelContext(ResultOf(q, app));
    typed.Some? && q.contextType != "" ==> typed.value == q.contextType
  }

  predicate AppAllowed(q: Query, app: string, contexts: ContextTypes) {
    ContextAllowed(q, contexts) && ChannelAllowed(q, app) && MatchesResultType(q.resultType, ResultOf(q, app))
  }

  predicate Offered(q: Query, intent: string, app: string) {
    var c := Candidate(q, intent, app);
    c.Some? && AppAllowed(q, app, c.value)
  }

  // ---------- Sorting names ----------

  /** Code-point order of strings. */
  predicate Less(a: string, b: string) {
    if b == "" then false
    else if a == "" then true
    else a[0] < b[0] || (a[0] == b[0] && Less(a[1..], b[1..]))
  }

  predicate StrictlySorted(s: seq<string>) {
    forall a, b :: 0 <= a < b < |s| ==> Less(s[a], s[b])
  }

  lemma {:induction false} LessTransitive(a: string, b: string, c: string)
    requires Less(a, b) && Less(b, c)
    ensures Less(a, c)
  {
    if a != "" && a[0] == b[0] && b[0] == c[0] {
      LessTransitive(a[1..], b[1..], c[1..]);
    }
  }

  lemma {:induction false} LessTotal(a: string, b: string)
    ensures Less(a, b) || a == b || Less(b, a)
    ensures !(Less(a, b) && Less(b, a)) && !Less(a, a)
  {
    if a != "" && b != "" {
      LessTotal(a[1..], b[1..]);
      assert a == [a[0]] + a[1..] && b == [b[0]] + b[1..];
    }
    if a != "" {
      LessTotal(a[1..], a[1..]);
    }
  }

  function InsertName(s: seq<string>, x: string): seq<string> {
    if s == [] then [x] else if Less(x, s[0]) then [x] + s else [s[0]] + InsertName(s[1..], x)
  }

  lemma {:induction false} InsertNameSorted(s: seq<string>, x: string)
    requires StrictlySorted(s) && x !in s
    ensures StrictlySorted(InsertName(s, x))
    ensures forall y :: y in InsertName(s, x) <==> y == x || y in s
  {
    if s != [] {
      if Less(x, s[0]) {
        forall k | 0 < k < |s| ensures Less(x, s[k]) {
          LessTransitive(x, s[0], s[k]);
        }
      } else {
        LessTotal(x, s[0]);
        InsertNameSorted(s[1..], x);
        forall y | y in InsertName(s[1..], x) ensures Less(s[0], y) {
        }
      }
    }
  }

  /** `sorted` on the keys of a dictionary. */
  method SortedNames(names: set<string>) returns (r: seq<string>)
    ensures StrictlySorted(r) && forall x :: x in r <==> x in names
  {
    r := [];
    var todo := names;
    while todo != {}
      invariant todo <= names && StrictlySorted(r) && forall x :: x in r <==> x in names - todo
    {
      var x :| x in todo;
      InsertNameSorted(r, x);
      r, todo := InsertName(r, x), todo - {x};
    }
  }

  // ---------- Collecting ----------

  type AppMap = map<string, ContextTypes>
  type IntentMap = map<string, AppMap>

  function At(m: IntentMap, intent: string, app: string): Option<ContextTypes> {
    if intent in m && app in m[intent] then Some(m[intent][app]) else None
  }

  function Inner(m: IntentMap, intent: string): AppMap {
    if intent in m then m[intent] else map[]
  }

  lemma {:induction false} LastOfferAppend(a: seq<Offer>, b: seq<Offer>, intent: string, app: string)
    ensures LastOffer(a + b, intent, app)
            == if LastOffer(b, intent, app).Some? then LastOffer(b, intent, app) else LastOffer(a, intent, app)
  {
    if b == [] {
      assert a + b == a;
    } else {
      assert (a + b)[..|a + b| - 1] == a + b[..|b| - 1];
      LastOfferAppend(a, b[..|b| - 1], intent, app);
    }
  }

  predicate Restricted(offers: seq<Offer>) {
    exists o :: o in offers && o.contexts.Some?
  }

  /** The nested dictionary holds, for each intent and app, the last offer. */
  ghost predicate HoldsLast(m: IntentMap, offers: seq<Offer>) {
    forall i, a :: At(m, i, a) == LastOffer(offers, i, a)
  }

  lemma PutOffer(m: IntentMap, offers: seq<Offer>, o: Offer)
    requires HoldsLast(m, offers)
    ensures HoldsLast(m[o.intent := Inner(m, o.intent)[o.app := o.contexts]], offers + [o])
    ensures Restricted(offers + [o]) <==> Restricted(offers) || o.contexts.Some?
  {
    var r := m[o.intent := Inner(m, o.intent)[o.app := o.contexts]];
    forall i, a ensures At(r, i, a) == LastOffer(offers + [o], i, a) {
      LastOfferAppend(offers, [o], i, a);
      assert At(m, i, a) == LastOffer(offers, i, a);
    }
    assert o in offers + [o];
    assert forall x :: x in offers ==> x in offers + [o];
  }

  /** The offers of one directory record. */
  method CollectRecord(m: IntentMap, ghost before: seq<Offer>, app: AppRecord, constrained: bool)
    returns (r: IntentMap, flag: bool)
    requires HoldsLast(m, before) && (constrained <==> Restricted(before))
    ensures HoldsLast(r, before + OffersOf(app.id, app.intents))
    ensures flag <==> Restricted(before + OffersOf(app.id, app.intents))
  {
    r, flag := m, constrained;
    ghost var soFar := before;
    for k := 0 to |app.intents|
      invariant soFar == before + OffersOf(app.id, app.intents[..k])
      invariant HoldsLast(r, soFar) && (flag <==> Restricted(soFar))
    {
      assert app.intents[..k + 1][..k] == app.intents[..k];
      var offer := Normalize(app.intents[k], app.id);
      if offer == None {
        continue;
      }
      var o := offer.value;
      PutOffer(r, soFar, o);
      if o.contexts.Some? {
        flag := true;
      }
      r := r[o.intent := Inner(r, o.intent)[o.app := o.contexts]];
      soFar := soFar + [o];
    }
    assert app.intents[..|app.intents|] == app.intents;
  }

  method CollectDirectory(directory: seq<AppRecord>)
    returns (m: IntentMap, results: map<string, string>, constrained: bool)
    ensures HoldsLast(m, DirectoryOffers(directory))
    ensures results == DirectoryResults(directory)
    ensures constrained <==> Restricted(DirectoryOffers(directory))
  {
    m, results, constrained := map[], map[], false;
    for k := 0 to |directory|
      invariant HoldsLast(m, DirectoryOffers(directory[..k]))
      invariant results == DirectoryResults(directory[..k])
      invariant constrained <==> Restricted(DirectoryOffers(directory[..k]))
    {
      var app := directory[k];
      assert directory[..k + 1][..k] == directory[..k] && directory[..k + 1][k] == app;
      if app.id == "" {
        assert DirectoryOffers(directory[..k + 1]) == DirectoryOffers(directory[..k]);
        continue;
      }
      assert DirectoryOffers(directory[..k + 1]) == DirectoryOffers(directory[..k]) + OffersOf(app.id, app.intents);
      results := results[app.id := app.resultType];
      m, constrained := CollectRecord(m, DirectoryOffers(directory[..k]), app, constrained);
    }
    assert directory[..|directory|] == directory;
  }

  predicate ClaimedBy(ls: Table, instances: seq<Apps.AppInstance>, intent: string, app: string) {
    exists l :: l in ls && Claims(l, instances, intent, app)
  }

  /** Listeners add apps the directory does not mention, and override nothing. */
  method CollectListeners(m: IntentMap, ls: Table, instances: seq<Apps.AppInstance>) returns (r: IntentMap)
    ensures forall i, a :: At(r, i, a) == if At(m, i, a).Some? then At(m, i, a)
                                          else if ClaimedBy(ls, instances, i, a) then Some(None) else None
  {
    r := m;
    for k := 0 to |ls|
      invariant forall i, a :: At(r, i, a) == if At(m, i, a).Some? then At(m, i, a)
                                              else if ClaimedBy(ls[..k], instances, i, a) then Some(None) else None
    {
      var l := ls[k];
      assert ls[..k + 1] == ls[..k] + [l];
      assert forall i, a :: ClaimedBy(ls[..k + 1], instances, i, a)
                            <==> ClaimedBy(ls[..k], instances, i, a) || Claims(l, instances, i, a);
      if !l.topic.OnIntent? || l.topic.intent == "" || l.instance == "" {
        continue;
      }
      var inst := Apps.Lookup(instances, l.instance);
      if inst.Some? && inst.value.appId != "" {
        var inner := Inner(r, l.topic.intent);
        if inst.value.appId !in inner {
          r := r[l.topic.intent := inner[inst.value.appId := None]];
        }
      }
    }
    assert ls[..|ls|] == ls;
  }

  /** The filters for one app: whether it stays, and whether its typed channel
      result counts as a constraint. */
  method JudgeApp(q: Query, app: string, contexts: ContextTypes) returns (allowed: bool, typed: bool)
    ensures allowed <==> AppAllowed(q, app, contexts)
    ensures typed <==> ContextAllowed(q, contexts) && TypedChannelContext(ResultOf(q, app)).Some?
  {
    if q.enforce && q.contextType != "" && contexts.Some? && q.contextType !in contexts.value {
      return false, false;
    }
    typed := false;
    var channel := TypedChannelContext(ResultOf(q, app));
    if channel.Some? {
      typed := true;
      if q.contextType != "" && channel.value != q.contextType {
        return false, typed;
      }
    }
    allowed := MatchesResultType(q.resultType, ResultOf(q, app));
  }

  predicate Counts(q: Query, apps: AppMap, app: string) {
    app in apps && ContextAllowed(q, apps[app]) && TypedChannelContext(ResultOf(q, app)).Some?
  }

  predicate Stays(q: Query, apps: AppMap, app: string) {
    app in apps && AppAllowed(q, app, apps[app])
  }

  /** `r` holds the apps among `done` that stay, and `flag` says whether any of
      them counts as typed. */
  ghost predicate FilteredSoFar(q: Query, apps: AppMap, r: seq<string>, flag: bool, done: seq<string>) {
    && StrictlySorted(r)
    && (forall a :: a in r <==> a in done && Stays(q, apps, a))
    && (flag <==> exists a :: a in done && Counts(q, apps, a))
  }

  lemma FilterStep(q: Query, apps: AppMap, r: seq<string>, flag: bool, done: seq<string>, app: string)
    requires FilteredSoFar(q, apps, r, flag, done) && StrictlySorted(done + [app])
    ensures FilteredSoFar(q, apps, if Stays(q, apps, app) then r + [app] else r, flag || Counts(q, apps, app),
                          done + [app])
  {
    forall k | 0 <= k < |r| ensures Less(r[k], app) {
      assert r[k] in r;
      var j :| 0 <= j < |done| && done[j] == r[k];
      assert (done + [app])[j] == done[j] && (done + [app])[|done|] == app;
    }
  }

  /** The apps of one intent that pass every filter, in order. */
  method FilterApps(q: Query, apps: AppMap) returns (r: seq<string>, flag: bool)
    ensures StrictlySorted(r) && forall a :: a in r <==> Stays(q, apps, a)
    ensures flag <==> exists a :: Counts(q, apps, a)
  {
    var names := SortedNames(apps.Keys);
    r, flag := [], false;
    for k := 0 to |names|
      invariant FilteredSoFar(q, apps, r, flag, names[..k])
    {
      var app := names[k];
      assert names[..k + 1] == names[..k] + [app];
      FilterStep(q, apps, r, flag, names[..k], app);
      assert app in names;
      var allowed, typed := JudgeApp(q, app, apps[app]);
      flag := flag || typed;
      if allowed {
        r := r + [app];
      }
    }
    assert names[..|names|] == names;
  }

  datatype Group = Group(intent: string, apps: seq<string>)

  predicate InGroups(groups: seq<Group>, intent: string, app: string) {
    exists g :: g in groups && g.intent == intent && app in g.apps
  }

  function IntentsOf(groups: seq<Group>): seq<string> {
    if groups == [] then [] else IntentsOf(groups[..|groups| - 1]) + [groups[|groups| - 1].intent]
  }

  /** Groups are strictly sorted by intent, and each is nonempty and strictly
      sorted. */
  ghost predicate WellSorted(groups: seq<Group>) {
    && (forall a, b :: 0 <= a < b < |groups| ==> Less(groups[a].intent, groups[b].intent))
    && (forall g :: g in groups ==> g.apps != [] && StrictlySorted(g.apps))
  }

  /** The app is considered for the intent and has a typed channel result. */
  predicate TypedCandidate(q: Query, intent: string, app: string) {
    && Candidate(q, intent, app).Some? && ContextAllowed(q, Candidate(q, intent, app).value)
    && TypedChannelContext(ResultOf(q, app)).Some?
  }

  ghost predicate HasConstraints(q: Query) {
    Restricted(DirectoryOffers(q.directory)) || exists i, a :: TypedCandidate(q, i, a)
  }

  ghost predicate HoldsCandidates(m: IntentMap, q: Query) {
    forall i, a :: At(m, i, a) == Candidate(q, i, a)
  }

  /** The apps of one intent: exactly those offered, in order. */
  method OfferedApps(q: Query, m: IntentMap, intent: string) returns (apps: seq<string>, typed: bool)
    requires HoldsCandidates(m, q) && intent in m
    ensures StrictlySorted(apps) && forall a :: a in apps <==> Offered(q, intent, a)
    ensures typed <==> exists a :: TypedCandidate(q, intent, a)
  {
    apps, typed := FilterApps(q, m[intent]);
    forall a ensures At(m, intent, a) == Candidate(q, intent, a) {
    }
    assert forall a :: TypedCandidate(q, intent, a) ==> Counts(q, m[intent], a);
    if typed {
      var a :| Counts(q, m[intent], a);
      assert TypedCandidate(q, intent, a);
    }
  }

  /** `groups` holds the offers of the intents in `done`. */
  ghost predicate GroupsSoFar(q: Query, groups: seq<Group>, done: seq<string>) {
    && WellSorted(groups)
    && (forall g :: g in groups ==> g.intent in done)
    && forall i, a :: InGroups(groups, i, a) <==> i in done && Offered(q, i, a)
  }

  lemma GroupsStep(q: Query, groups: seq<Group>, done: seq<string>, intent: string, apps: seq<string>)
    requires GroupsSoFar(q, groups, done) && forall i :: i in done ==> Less(i, intent)
    requires StrictlySorted(apps) && forall a :: a in apps <==> Offered(q, intent, a)
    ensures GroupsSoFar(q, if apps != [] then groups + [Group(intent, apps)] else groups, done + [intent])
  {
  }

  /** `_collect_app_intents_by_context`: sound and complete for the declarative
      reading of the query. */
  method CollectAppIntents(q: Query) returns (groups: seq<Group>, constrained: bool)
    ensures WellSorted(groups)
    ensures forall i, a :: InGroups(groups, i, a) <==> Offered(q, i, a)
    ensures constrained <==> HasConstraints(q)
  {
    var m, results, flag := CollectDirectory(q.directory);
    m := CollectListeners(m, q.listeners, q.instances);
    assert HoldsCandidates(m, q);
    groups, constrained := BuildGroups(q, m, flag);
  }

  method BuildGroups(q: Query, m: IntentMap, flag: bool) returns (groups: seq<Group>, constrained: bool)
    requires HoldsCandidates(m, q)
    ensures WellSorted(groups)
    ensures forall i, a :: InGroups(groups, i, a) <==> Offered(q, i, a)
    ensures constrained <==> flag || exists i, a :: TypedCandidate(q, i, a)
  {
    var names := SortedNames(m.Keys);
    groups, constrained := [], flag;
    for k := 0 to |names|
      invariant GroupsSoFar(q, groups, names[..k])
      invariant constrained <==> flag || exists i, a :: i in names[..k] && TypedCandidate(q, i, a)
    {
      var intent := names[k];
      assert intent in names && names[..k + 1] == names[..k] + [intent];
      var apps, typed := OfferedApps(q, m, intent);
      forall i | i in names[..k] ensures Less(i, intent) {
      }
      GroupsStep(q, groups, names[..k], intent, apps);
      constrained := constrained || typed;
      if apps != [] {
        groups := groups + [Group(intent, apps)];
      }
    }
    assert names[..|names|] == names;
    forall i, a | Candidate(q, i, a).Some? ensures i in names {
      assert At(m, i, a) == Candidate(q, i, a);
    }
  }

  // ---------- What the result means ----------

  /** Enforcing the context only takes apps away. */
  lemma EnforcingShrinks(q: Query, intent: string, app: string)
    requires Offered(q.(enforce := true), intent, app)
    ensures Offered(q.(enforce := false), intent, app)
  {
  }

  lemma NonemptyHasElement(t: seq<string>)
    ensures t != [] ==> exists x :: x in t
  {
    if t != [] {
      assert t[0] in t;
    }
  }

  lemma {:induction false} SortedUnique(s: seq<string>, t: seq<string>)
    requires StrictlySorted(s) && StrictlySorted(t) && forall x :: x in s <==> x in t
    ensures s == t
  {
    NonemptyHasElement(t);
    if s != [] {
      assert s[0] in t && t != [];
      assert t[0] in s;
      LessTotal(s[0], t[0]);
      assert s[0] == t[0];
      forall x ensures x in s[1..] <==> x in t[1..] {
        LessTotal(s[0], x);
        assert x in s[1..] ==> Less(s[0], x) && x in s;
        assert x in t[1..] ==> Less(t[0], x) && x in t;
        assert x in s ==> x == s[0] || x in s[1..];
        assert x in t ==> x == t[0] || x in t[1..];
      }
      SortedUnique(s[1..], t[1..]);
    }
  }

  /** The order and the membership leave only one possible result. */
  lemma {:induction false} GroupsUnique(g: seq<Group>, h: seq<Group>)
    requires WellSorted(g) && WellSorted(h)
    requires forall i, a :: InGroups(g, i, a) <==> InGroups(h, i, a)
    ensures g == h
  {
    if g == [] {
      if h != [] {
        assert h[0] in h && h[0].apps[0] in h[0].apps;
        assert InGroups(h, h[0].intent, h[0].apps[0]);
      }
    } else {
      assert g[0] in g;
      assert InGroups(g, g[0].intent, g[0].apps[0]);
      FirstIntentLeast(g, h);
      FirstIntentLeast(h, g);
      LessTotal(g[0].intent, h[0].intent);
      assert g[0].intent == h[0].intent;
      FirstAppsEqual(g, h);
      TailsAgree(g, h);
      GroupsUnique(g[1..], h[1..]);
    }
  }

  lemma FirstIntentLeast(g: seq<Group>, h: seq<Group>)
    requires WellSorted(g) && g != [] && forall i, a :: InGroups(g, i, a) <==> InGroups(h, i, a)
    ensures h != []
    ensures WellSorted(h) ==> !Less(g[0].intent, h[0].intent)
  {
    var a := g[0].apps[0];
    assert g[0] in g && a in g[0].apps;
    assert InGroups(g, g[0].intent, a);
    var x :| x in h && x.intent == g[0].intent && a in x.apps;
    if WellSorted(h) {
      var k :| 0 <= k < |h| && h[k] == x;
      LessTotal(h[0].intent, h[k].intent);
    }
  }

  lemma FirstAppsEqual(g: seq<Group>, h: seq<Group>)
    requires WellSorted(g) && WellSorted(h) && g != [] && h != [] && g[0].intent == h[0].intent
    requires forall i, a :: InGroups(g, i, a) <==> InGroups(h, i, a)
    ensures g[0].apps == h[0].apps
  {
    forall a ensures a in g[0].apps <==> a in h[0].apps {
      OnlyFirstHasIntent(g, a);
      OnlyFirstHasIntent(h, a);
    }
    SortedUnique(g[0].apps, h[0].apps);
  }

  lemma OnlyFirstHasIntent(g: seq<Group>, a: string)
    requires WellSorted(g) && g != []
    ensures InGroups(g, g[0].intent, a) <==> a in g[0].apps
    ensures !InGroups(g[1..], g[0].intent, a)
  {
    assert g[0] in g;
    forall k | 0 < k < |g| ensures g[k].intent != g[0].intent {
      LessTotal(g[0].intent, g[k].intent);
    }
  }

  lemma TailsAgree(g: seq<Group>, h: seq<Group>)
    requires WellSorted(g) && WellSorted(h) && g != [] && h != [] && g[0] == h[0]
    requires forall i, a :: InGroups(g, i, a) <==> InGroups(h, i, a)
    ensures forall i, a :: InGroups(g[1..], i, a) <==> InGroups(h[1..], i, a)
    ensures WellSorted(g[1..]) && WellSorted(h[1..])
  {
    forall i, a ensures InGroups(g[1..], i, a) <==> InGroups(h[1..], i, a) {
      GroupsGrowFront(g, i, a);
      GroupsGrowFront(h, i, a);
      OnlyFirstHasIntent(g, a);
      OnlyFirstHasIntent(h, a);
    }
  }

  lemma GroupsGrowFront(g: seq<Group>, i: string, a: string)
    requires g != []
    ensures InGroups(g, i, a) <==> (i == g[0].intent && a in g[0].apps) || InGroups(g[1..], i, a)
  {
  }
}
