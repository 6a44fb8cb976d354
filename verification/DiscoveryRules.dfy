/** What intent discovery finds, read off directory records, listeners and texts:
    the helpers of Discovery against descriptions that do not use them. */
module DiscoveryRules {
  import opened Basics
  import opened Listeners
  import opened Discovery
  import Apps

  // ---------- Texts ----------

  ghost predicate Blank(s: string) {
    forall k :: 0 <= k < |s| ==> IsSpace(s[k])
  }

  ghost predicate Trimmed(s: string) {
    s == "" || (!IsSpace(s[0]) && !IsSpace(s[|s| - 1]))
  }

  /** Of the printable ASCII characters only the blank is space; so are the usual
      control characters. */
  lemma UsualSpaces(c: char)
    ensures IsSpace(' ') && IsSpace('\t') && IsSpace('\n') && IsSpace('\r')
    ensures '!' <= c <= '~' ==> !IsSpace(c)
  {
  }

  lemma {:induction false} StripLeftExact(a: string, s: string)
    requires Blank(a) && (s == "" || !IsSpace(s[0]))
    ensures StripLeft(a + s) == s
  {
    if a != "" {
      assert (a + s)[0] == a[0] && (a + s)[1..] == a[1..] + s;
      StripLeftExact(a[1..], s);
    } else {
      assert a + s == s;
    }
  }

  lemma {:induction false} StripRightExact(s: string, b: string)
    requires Blank(b) && (s == "" || !IsSpace(s[|s| - 1]))
    ensures StripRight(s + b) == s
  {
    if b != "" {
      var front := b[..|b| - 1];
      assert (s + b)[|s + b| - 1] == b[|b| - 1] && (s + b)[..|s + b| - 1] == s + front;
      StripRightExact(s, front);
    } else {
      assert s + b == s;
    }
  }

  /** Stripping takes the white space off both ends, all of it and nothing else. */
  lemma StripExact(a: string, x: string, b: string)
    requires Blank(a) && Trimmed(x) && Blank(b)
    ensures Strip(a + x + b) == x
  {
    if x == "" {
      assert a + x + b == (a + b) + "" && Blank(a + b);
      StripLeftExact(a + b, "");
    } else {
      assert a + x + b == a + (x + b) && (x + b)[0] == x[0];
      StripLeftExact(a, x + b);
      StripRightExact(x, b);
    }
  }

  lemma {:induction false} StripLeftLeaves(s: string) returns (a: string)
    ensures Blank(a) && s == a + StripLeft(s) && (StripLeft(s) == "" || !IsSpace(StripLeft(s)[0]))
  {
    if s != "" && IsSpace(s[0]) {
      var rest := StripLeftLeaves(s[1..]);
      a := [s[0]] + rest;
    } else {
      a := "";
    }
  }

  lemma {:induction false} StripRightLeaves(s: string) returns (b: string)
    ensures Blank(b) && s == StripRight(s) + b
    ensures StripRight(s) == "" || !IsSpace(StripRight(s)[|StripRight(s)| - 1])
    ensures StripRight(s) != "" ==> StripRight(s)[0] == s[0]
  {
    if s != "" && IsSpace(s[|s| - 1]) {
      var rest := StripRightLeaves(s[..|s| - 1]);
      b := rest + [s[|s| - 1]];
    } else {
      b := "";
    }
  }

  /** Every text is what stripping leaves of it, between two blank parts. */
  lemma StripLeaves(s: string) returns (a: string, b: string)
    ensures Blank(a) && Blank(b) && s == a + Strip(s) + b && Trimmed(Strip(s))
  {
    a := StripLeftLeaves(s);
    b := StripRightLeaves(StripLeft(s));
  }

  lemma IsTypedChannelIff(v: string)
    ensures IsTypedChannel(v) <==> exists inner :: v == "channel<" + inner + ">"
  {
    if IsTypedChannel(v) {
      TypedChannelParts(v);
    }
    if inner :| v == "channel<" + inner + ">" {
      assert v[..8] == "channel<" && v[|v| - 1] == '>';
    }
  }

  /** The text reads `channel<x>`, with any white space around it and around
      `x`. */
  ghost predicate ReadsChannelOf(text: string, x: string) {
    Trimmed(x) && x != "" && exists v, inner :: Around(text, v) && v == "channel<" + inner + ">" && Around(inner, x)
  }

  ghost predicate Around(text: string, x: string) {
    exists a, b :: Blank(a) && Blank(b) && text == a + x + b
  }

  lemma AroundIsStripped(text: string, x: string)
    requires Trimmed(x)
    ensures Around(text, x) <==> Strip(text) == x
  {
    if Around(text, x) {
      var a, b :| Blank(a) && Blank(b) && text == a + x + b;
      StripExact(a, x, b);
    }
    var a, b := StripLeaves(text);
  }

  /** The context type of a typed channel result is `x` exactly if the text reads
      `channel<x>`; and there is none exactly if it reads so for no `x`. */
  lemma TypedChannelContextExact(text: string, x: string)
    ensures TypedChannelContext(text) == Some(x) <==> ReadsChannelOf(text, x)
    ensures TypedChannelContext(text) == None <==> forall y :: !ReadsChannelOf(text, y)
  {
    forall y ensures TypedChannelContext(text) == Some(y) <==> ReadsChannelOf(text, y) {
      TypedChannelContextReads(text, y);
    }
    if TypedChannelContext(text).Some? {
      assert ReadsChannelOf(text, TypedChannelContext(text).value);
    }
  }

  lemma TypedChannelContextReads(text: string, y: string)
    ensures TypedChannelContext(text) == Some(y) <==> ReadsChannelOf(text, y)
  {
    if TypedChannelContext(text) == Some(y) {
      ExtractedReads(text, y);
    }
    if ReadsChannelOf(text, y) {
      var v, inner :| Around(text, v) && v == "channel<" + inner + ">" && Around(inner, y);
      ReadIsExtracted(text, inner, y);
    }
  }

  lemma TypedChannelParts(v: string)
    requires IsTypedChannel(v)
    ensures v == "channel<" + v[8..|v| - 1] + ">"
  {
    assert v == v[..8] + v[8..|v| - 1] + [v[|v| - 1]];
  }

  lemma ExtractedReads(text: string, y: string)
    requires TypedChannelContext(text) == Some(y)
    ensures ReadsChannelOf(text, y)
  {
    var v := Strip(text);
    var inner := v[8..|v| - 1];
    TypedChannelParts(v);
    var _, _ := StripLeaves(text);
    var _, _ := StripLeaves(inner);
    assert Around(text, v) && Around(inner, y);
  }

  lemma ReadIsExtracted(text: string, inner: string, y: string)
    requires Around(text, "channel<" + inner + ">") && Around(inner, y) && Trimmed(y) && y != ""
    ensures TypedChannelContext(text) == Some(y)
  {
    var v := "channel<" + inner + ">";
    assert v[0] == 'c' && v[|v| - 1] == '>' && v[..8] == "channel<" && v[8..|v| - 1] == inner;
    AroundIsStripped(text, v);
    AroundIsStripped(inner, y);
  }

  lemma SameReading(a: string, b: string)
    ensures (exists v :: Trimmed(v) && Around(a, v) && Around(b, v)) <==> Strip(a) == Strip(b)
  {
    forall v | Trimmed(v) ensures Around(a, v) <==> Strip(a) == v ensures Around(b, v) <==> Strip(b) == v {
      AroundIsStripped(a, v);
      AroundIsStripped(b, v);
    }
    var _, _ := StripLeaves(a);
  }

  lemma ReadsTyped(text: string)
    ensures (exists inner :: Around(text, "channel<" + inner + ">")) <==> IsTypedChannel(Strip(text))
  {
    IsTypedChannelIff(Strip(text));
    forall inner ensures Around(text, "channel<" + inner + ">") <==> Strip(text) == "channel<" + inner + ">" {
      var v := "channel<" + inner + ">";
      assert v[0] == 'c' && v[|v| - 1] == '>';
      AroundIsStripped(text, v);
    }
  }

  /** Whether a result type satisfies a request: none was made; or both read the
      same but for outer white space; or any channel was asked for and some
      typed one is the result. */
  lemma MatchesResultTypeExact(requested: string, result: string)
    ensures MatchesResultType(requested, result)
            <==> requested == ""
                 || (result != ""
                     && ((exists v :: Trimmed(v) && Around(requested, v) && Around(result, v))
                         || (Around(requested, "channel") && exists inner :: Around(result, "channel<" + inner + ">"))))
  {
    MatchesResultTypeIff(requested, result);
    SameReading(requested, result);
    ReadsTyped(result);
    AroundIsStripped(requested, "channel");
  }

  // ---------- Order ----------

  /** Names are ordered by code point: at the first difference the smaller
      character comes first, and a proper prefix before its extension. */
  lemma {:induction false} LessExact(a: string, b: string)
    ensures Less(a, b) <==> exists k :: DiffersAt(a, b, k)
  {
    if b == "" {
    } else if a == "" {
      assert DiffersAt(a, b, 0);
    } else if a[0] != b[0] {
      assert DiffersAt(a, b, 0) <==> a[0] < b[0];
    } else {
      LessExact(a[1..], b[1..]);
      forall k ensures DiffersAt(a, b, k) <==> DiffersAt(a[1..], b[1..], k - 1) {
        if k > 0 {
          assert k <= |a| ==> a[..k] == [a[0]] + a[1..][..k - 1];
          assert k < |b| ==> b[..k] == [b[0]] + b[1..][..k - 1];
        }
      }
      if k :| DiffersAt(a[1..], b[1..], k) {
        assert DiffersAt(a, b, k + 1);
      }
    }
  }

  ghost predicate DiffersAt(a: string, b: string, k: int) {
    0 <= k <= |a| && k < |b| && a[..k] == b[..k] && (k == |a| || a[k] < b[k])
  }

  // ---------- The directory ----------

  /** Absent, empty, or otherwise not counting as true. */
  predicate Void(f: Field) {
    f == Missing || f == Text("") || f == ListOf([]) || f == Other(false)
  }

  /** A mapping's first field that counts as true is its name, if it is a text. */
  ghost predicate Names(e: Entry, intent: string) {
    match e
    case Plain(text) => text == intent
    case Mapping(name, intentField, intentName, _, _) =>
      && intent != ""
      && (|| name == Text(intent)
          || (Void(name) && intentField == Text(intent))
          || (Void(name) && Void(intentField) && intentName == Text(intent)))
    case Unusable => false
  }

  /** The context types an entry restricts its intent to: one text, or the texts
      of a list, of the first of its two fields that counts as true. */
  ghost predicate RestrictsTo(e: Entry, contexts: ContextTypes) {
    if !e.Mapping? then contexts == None
    else
      var f := if Void(e.contexts) then e.contextTypes else e.contexts;
      match f
      case Text(t) => contexts == Some([t])
      case ListOf(items) => contexts.Some? && Texts(items, contexts.value)
      case _ => contexts == None
  }

  /** `texts` are the texts among the items, in order. */
  ghost predicate Texts(items: seq<Option<string>>, texts: seq<string>) {
    if items == [] then texts == []
    else if items[0] == None then Texts(items[1..], texts)
    else texts != [] && texts[0] == items[0].value && Texts(items[1..], texts[1..])
  }

  ghost predicate Says(e: Entry, intent: string, contexts: ContextTypes) {
    Names(e, intent) && RestrictsTo(e, contexts)
  }

  lemma {:induction false} StringsExact(items: seq<Option<string>>, texts: seq<string>)
    ensures Texts(items, texts) <==> texts == Strings(items)
  {
    if items != [] {
      if items[0] == None {
        StringsExact(items[1..], texts);
      } else if texts != [] {
        StringsExact(items[1..], texts[1..]);
        assert texts == [texts[0]] + texts[1..];
      }
    }
  }

  lemma NormalizeExact(e: Entry, app: string, intent: string, contexts: ContextTypes)
    ensures Normalize(e, app) == Some(Offer(intent, app, contexts)) <==> Says(e, intent, contexts)
    ensures Normalize(e, app).Some? ==> Normalize(e, app).value.app == app
  {
    if e.Mapping? {
      var n := Or(Or(e.name, e.intentField), e.intentName);
      NameExact(e.name, e.intentField, e.intentName, intent);
      ContextsExact(e, contexts);
      assert Normalize(e, app)
          == if n.Text? && n.text != "" then Some(Offer(n.text, app, ContextsOf(Or(e.contexts, e.contextTypes))))
             else None;
    }
  }

  lemma NameExact(a: Field, b: Field, c: Field, intent: string)
    ensures intent != "" && Or(Or(a, b), c) == Text(intent)
            <==> intent != "" && (a == Text(intent) || (Void(a) && b == Text(intent))
                                  || (Void(a) && Void(b) && c == Text(intent)))
  {
  }

  lemma ContextsExact(e: Entry, contexts: ContextTypes)
    requires e.Mapping?
    ensures ContextsOf(Or(e.contexts, e.contextTypes)) == contexts <==> RestrictsTo(e, contexts)
  {
    var f := if Void(e.contexts) then e.contextTypes else e.contexts;
    assert f == Or(e.contexts, e.contextTypes);
    if f.ListOf? && contexts.Some? {
      StringsExact(f.items, contexts.value);
    }
  }

  /** Record `j` of the directory, in its entry `e`, offers the intent. */
  ghost predicate OffersAt(directory: seq<AppRecord>, j: int, e: int, intent: string, app: string,
                           contexts: ContextTypes)
  {
    && 0 <= j < |directory| && directory[j].id == app && app != ""
    && 0 <= e < |directory[j].intents| && Says(directory[j].intents[e], intent, contexts)
  }

  /** No later entry offers the same intent for the same app. */
  ghost predicate LastWord(directory: seq<AppRecord>, j: int, e: int, intent: string, app: string) {
    forall k, d, contexts :: OffersAt(directory, k, d, intent, app, contexts) ==> k < j || (k == j && d <= e)
  }

  /** The last entry of a record for an intent, if there is one. */
  lemma {:induction false} LastOfRecord(app: string, entries: seq<Entry>, intent: string) returns (e: int)
    ensures var last := LastOffer(OffersOf(app, entries), intent, app);
            && (last.Some? ==> 0 <= e < |entries| && Says(entries[e], intent, last.value))
            && (last == None ==> e == -1)
            && forall d, c :: e < d < |entries| && 0 <= d ==> !Says(entries[d], intent, c)
  {
    if entries == [] {
      e := -1;
    } else {
      var front, entry := entries[..|entries| - 1], entries[|entries| - 1];
      var o := Normalize(entry, app);
      LastOfferAppend(OffersOf(app, front), if o.Some? then [o.value] else [], intent, app);
      forall c ensures Says(entry, intent, c) <==> o == Some(Offer(intent, app, c)) {
        NormalizeExact(entry, app, intent, c);
      }
      if o.Some? && o.value.intent == intent {
        NormalizeExact(entry, app, intent, o.value.contexts);
        e := |entries| - 1;
      } else {
        e := LastOfRecord(app, front, intent);
      }
    }
  }

  lemma {:induction false} OffersOfApp(app: string, entries: seq<Entry>, intent: string, other: string)
    requires other != app
    ensures LastOffer(OffersOf(app, entries), intent, other) == None
  {
    if entries != [] {
      var last := Normalize(entries[|entries| - 1], app);
      OffersOfApp(app, entries[..|entries| - 1], intent, other);
      LastOfferAppend(OffersOf(app, entries[..|entries| - 1]), if last.Some? then [last.value] else [], intent, other);
    }
  }

  lemma OffersInFront(directory: seq<AppRecord>, intent: string, app: string)
    requires directory != []
    ensures var front := directory[..|directory| - 1];
            forall k, d, c :: k < |front| ==>
              (OffersAt(directory, k, d, intent, app, c) <==> OffersAt(front, k, d, intent, app, c))
  {
  }

  lemma OffersInLast(directory: seq<AppRecord>, intent: string, app: string)
    requires directory != []
    ensures var (n, record) := (|directory| - 1, directory[|directory| - 1]);
            forall d, c :: OffersAt(directory, n, d, intent, app, c)
                           <==> record.id == app && app != "" && 0 <= d < |record.intents|
                                && Says(record.intents[d], intent, c)
  {
  }

  /** Where the last record has its last word, or -1. */
  lemma LastInRecord(record: AppRecord, intent: string, app: string) returns (e: int)
    ensures var offers := if record.id == "" then [] else OffersOf(record.id, record.intents);
            var last := LastOffer(offers, intent, app);
            && (last.Some? ==> record.id == app && app != "" && 0 <= e < |record.intents|
                               && Says(record.intents[e], intent, last.value))
            && (last == None ==> e == -1)
            && (record.id == app && app != "" ==>
                  forall d, c :: e < d < |record.intents| && 0 <= d ==> !Says(record.intents[d], intent, c))
  {
    e := -1;
    if record.id == app && app != "" {
      e := LastOfRecord(app, record.intents, intent);
    } else if record.id != app && record.id != "" {
      OffersOfApp(record.id, record.intents, intent, app);
    }
  }

  /** Where the directory has its last word on an intent and an app. */
  lemma {:induction false} WhereLast(directory: seq<AppRecord>, intent: string, app: string) returns (j: int, e: int)
    ensures var last := LastOffer(DirectoryOffers(directory), intent, app);
            && (last.Some? ==> OffersAt(directory, j, e, intent, app, last.value)
                               && LastWord(directory, j, e, intent, app))
            && (last == None ==> forall k, d, c :: !OffersAt(directory, k, d, intent, app, c))
  {
    if directory == [] {
      j, e := -1, -1;
    } else {
      var front, record := directory[..|directory| - 1], directory[|directory| - 1];
      LastOfferAppend(DirectoryOffers(front), if record.id == "" then [] else OffersOf(record.id, record.intents),
                      intent, app);
      OffersInFront(directory, intent, app);
      OffersInLast(directory, intent, app);
      e := LastInRecord(record, intent, app);
      if e >= 0 {
        j := |front|;
      } else {
        j, e := WhereLast(front, intent, app);
        NothingInLast(directory, intent, app);
      }
    }
  }

  /** A record that does not offer the intent leaves the last word to those before
      it. */
  lemma NothingInLast(directory: seq<AppRecord>, intent: string, app: string)
    requires directory != []
    requires forall k, d, c :: k == |directory| - 1 ==> !OffersAt(directory, k, d, intent, app, c)
    ensures var front := directory[..|directory| - 1];
            && (forall k, d, c :: OffersAt(directory, k, d, intent, app, c) <==> OffersAt(front, k, d, intent, app, c))
            && forall j, e :: LastWord(front, j, e, intent, app) ==> LastWord(directory, j, e, intent, app)
  {
    OffersInFront(directory, intent, app);
    forall k, d, c
      ensures OffersAt(directory, k, d, intent, app, c)
              <==> OffersAt(directory[..|directory| - 1], k, d, intent, app, c)
    {
    }
  }

  /** The last record of an app in the directory. */
  ghost predicate LastRecord(directory: seq<AppRecord>, j: int, app: string) {
    && 0 <= j < |directory| && directory[j].id == app && app != ""
    && forall k :: j < k < |directory| ==> directory[k].id != app
  }

  lemma {:induction false} DirectoryResultsExact(directory: seq<AppRecord>, app: string)
    ensures app in DirectoryResults(directory) <==> exists j :: LastRecord(directory, j, app)
    ensures forall j :: LastRecord(directory, j, app)
                        ==> app in DirectoryResults(directory)
                            && DirectoryResults(directory)[app] == directory[j].resultType
  {
    if directory != [] {
      var front, record := directory[..|directory| - 1], directory[|directory| - 1];
      DirectoryResultsExact(front, app);
      if record.id == app && app != "" {
        assert LastRecord(directory, |front|, app);
      } else {
        forall j ensures LastRecord(directory, j, app) <==> LastRecord(front, j, app) {
          assert forall k :: 0 <= k < |front| ==> front[k] == directory[k];
        }
      }
    }
  }

  /** The app's result type: of its last directory record, or else as stored. */
  ghost predicate HasResult(q: Query, app: string, text: string) {
    if exists j :: LastRecord(q.directory, j, app)
    then exists j :: LastRecord(q.directory, j, app) && text == q.directory[j].resultType
    else text == if app in q.stored then q.stored[app] else ""
  }

  lemma ResultOfExact(q: Query, app: string, text: string)
    ensures HasResult(q, app, text) <==> text == ResultOf(q, app)
  {
    DirectoryResultsExact(q.directory, app);
  }

  // ---------- What discovery finds ----------

  /** A running listener claims the intent for its instance's app. */
  ghost predicate RunsListener(q: Query, intent: string, app: string) {
    && intent != "" && app != ""
    && exists l :: l in q.listeners && l.topic == OnIntent(intent) && l.instance != ""
                   && Apps.Lookup(q.instances, l.instance).Some?
                   && Apps.Lookup(q.instances, l.instance).value.appId == app
  }

  /** The app handles the intent, for these context types: the directory's last
      word says so; or the directory is silent, and a listener claims it without
      restriction. */
  ghost predicate Handles(q: Query, intent: string, app: string, contexts: ContextTypes) {
    || (exists j, e :: OffersAt(q.directory, j, e, intent, app, contexts) && LastWord(q.directory, j, e, intent, app))
    || ((forall j, e, c :: !OffersAt(q.directory, j, e, intent, app, c)) && contexts == None
        && RunsListener(q, intent, app))
  }

  /** It takes the context, if that is enforced. */
  ghost predicate TakesContext(q: Query, contexts: ContextTypes) {
    !q.enforce || q.contextType == "" || contexts == None || q.contextType in contexts.value
  }

  /** Its result type fits: a typed channel is of the context's type, and the
      requested type is met. */
  ghost predicate ResultFits(q: Query, text: string) {
    && (forall x :: ReadsChannelOf(text, x) ==> q.contextType == "" || x == q.contextType)
    && (q.resultType == ""
        || (text != ""
            && ((exists v :: Trimmed(v) && Around(q.resultType, v) && Around(text, v))
                || (Around(q.resultType, "channel") && exists inner :: Around(text, "channel<" + inner + ">")))))
  }

  lemma SaysOnce(e: Entry, intent: string, a: ContextTypes, b: ContextTypes)
    requires Says(e, intent, a) && Says(e, intent, b)
    ensures a == b
  {
    NormalizeExact(e, "x", intent, a);
    NormalizeExact(e, "x", intent, b);
  }

  lemma CandidateExact(q: Query, intent: string, app: string, contexts: ContextTypes)
    ensures Candidate(q, intent, app) == Some(contexts) <==> Handles(q, intent, app, contexts)
  {
    var last := LastOffer(DirectoryOffers(q.directory), intent, app);
    var j, e := WhereLast(q.directory, intent, app);
    assert Claimed(q, intent, app) <==> RunsListener(q, intent, app);
    if last.Some? {
      assert OffersAt(q.directory, j, e, intent, app, last.value) && LastWord(q.directory, j, e, intent, app);
      forall k, d, c | OffersAt(q.directory, k, d, intent, app, c) && LastWord(q.directory, k, d, intent, app)
        ensures c == last.value
      {
        assert k == j && d == e;
        SaysOnce(q.directory[j].intents[e], intent, c, last.value);
      }
    }
  }

  /** Discovery finds an app for an intent exactly if it handles the intent for
      some context types, takes the context, and has a result type that fits. */
  lemma FoundExact(q: Query, intent: string, app: string)
    ensures Offered(q, intent, app)
            <==> exists contexts, text :: && Handles(q, intent, app, contexts) && TakesContext(q, contexts)
                                          && HasResult(q, app, text) && ResultFits(q, text)
  {
    var text := ResultOf(q, app);
    forall c ensures Candidate(q, intent, app) == Some(c) <==> Handles(q, intent, app, c) {
      CandidateExact(q, intent, app, c);
    }
    forall u ensures HasResult(q, app, u) <==> u == text {
      ResultOfExact(q, app, u);
    }
    FitsExact(q, app, text);
    if Offered(q, intent, app) {
      var c := Candidate(q, intent, app).value;
      assert Handles(q, intent, app, c) && TakesContext(q, c) && HasResult(q, app, text) && ResultFits(q, text);
    }
  }

  lemma FitsExact(q: Query, app: string, text: string)
    requires text == ResultOf(q, app)
    ensures ChannelAllowed(q, app) && MatchesResultType(q.resultType, text) <==> ResultFits(q, text)
  {
    forall x ensures TypedChannelContext(text) == Some(x) <==> ReadsChannelOf(text, x) {
      TypedChannelContextExact(text, x);
    }
    MatchesResultTypeExact(q.resultType, text);
  }

  /** The typed filter on its own: a result that reads `channel<x>` passes exactly
      if `x` is the context type or there is none. */
  lemma TypedFilterExact(q: Query, app: string, x: string)
    requires ReadsChannelOf(ResultOf(q, app), x)
    ensures ChannelAllowed(q, app) <==> q.contextType == "" || x == q.contextType
  {
    TypedChannelContextExact(ResultOf(q, app), x);
  }

  lemma {:induction false} ListedOffer(app: string, entries: seq<Entry>)
    ensures forall o :: o in OffersOf(app, entries)
                        <==> o.app == app && exists e :: 0 <= e < |entries| && Says(entries[e], o.intent, o.contexts)
  {
    if entries != [] {
      var front, entry := entries[..|entries| - 1], entries[|entries| - 1];
      ListedOffer(app, front);
      forall o: Offer
        ensures Normalize(entry, app) == Some(o) <==> o.app == app && Says(entry, o.intent, o.contexts)
      {
        NormalizeExact(entry, app, o.intent, o.contexts);
      }
      SaidAnywhere(entries);
      assert forall o :: o in OffersOf(app, entries) <==> o in OffersOf(app, front) || Normalize(entry, app) == Some(o);
    }
  }

  lemma SaidAnywhere(entries: seq<Entry>)
    requires entries != []
    ensures var (front, last) := (entries[..|entries| - 1], entries[|entries| - 1]);
            forall i, c :: (exists e :: 0 <= e < |entries| && Says(entries[e], i, c))
                           <==> (exists e :: 0 <= e < |front| && Says(front[e], i, c)) || Says(last, i, c)
  {
    var front, last := entries[..|entries| - 1], entries[|entries| - 1];
    forall i, c
      ensures (exists e :: 0 <= e < |entries| && Says(entries[e], i, c))
              <==> (exists e :: 0 <= e < |front| && Says(front[e], i, c)) || Says(last, i, c)
    {
      if e :| 0 <= e < |front| && Says(front[e], i, c) {
        assert entries[e] == front[e];
      } else if e :| 0 <= e < |entries| && Says(entries[e], i, c) {
        assert e == |front|;
      }
    }
  }

  lemma {:induction false} DirectoryOffer(directory: seq<AppRecord>, o: Offer)
    ensures o in DirectoryOffers(directory) <==> exists j, e :: OffersAt(directory, j, e, o.intent, o.app, o.contexts)
  {
    if directory != [] {
      var front, record := directory[..|directory| - 1], directory[|directory| - 1];
      DirectoryOffer(front, o);
      ListedOffer(record.id, record.intents);
      OffersAnywhere(directory, o.intent, o.app, o.contexts);
    }
  }

  lemma OffersAnywhere(directory: seq<AppRecord>, intent: string, app: string, c: ContextTypes)
    requires directory != []
    ensures var (front, record) := (directory[..|directory| - 1], directory[|directory| - 1]);
            (exists j, e :: OffersAt(directory, j, e, intent, app, c))
            <==> || (exists j, e :: OffersAt(front, j, e, intent, app, c))
                 || (record.id == app && app != ""
                     && exists e :: 0 <= e < |record.intents| && Says(record.intents[e], intent, c))
  {
    var front, record := directory[..|directory| - 1], directory[|directory| - 1];
    OffersInFront(directory, intent, app);
    OffersInLast(directory, intent, app);
    assert forall j, e :: OffersAt(directory, j, e, intent, app, c) ==> j <= |front|;
    if j, e :| OffersAt(front, j, e, intent, app, c) {
      assert OffersAt(directory, j, e, intent, app, c);
    } else if e :| record.id == app && app != "" && 0 <= e < |record.intents| && Says(record.intents[e], intent, c) {
      assert OffersAt(directory, |front|, e, intent, app, c);
    }
  }

  /** The constraint flag is up exactly if some directory entry restricts context
      types, or some app that handles an intent and takes the context has a typed
      channel result. */
  lemma ConstraintsExact(q: Query)
    ensures HasConstraints(q)
            <==> || (exists j, e, i, a, c: ContextTypes :: OffersAt(q.directory, j, e, i, a, c) && c.Some?)
                 || exists i, a :: HandlesTyped(q, i, a)
  {
    var offers := DirectoryOffers(q.directory);
    forall o ensures o in offers <==> exists j, e :: OffersAt(q.directory, j, e, o.intent, o.app, o.contexts) {
      DirectoryOffer(q.directory, o);
    }
    if j, e, i, a, c: ContextTypes :| OffersAt(q.directory, j, e, i, a, c) && c.Some? {
      var o := Offer(i, a, c);
      assert OffersAt(q.directory, j, e, o.intent, o.app, o.contexts);
      assert o in offers;
    }
    forall i, a ensures TypedCandidate(q, i, a) <==> HandlesTyped(q, i, a) {
      TypedCandidateExact(q, i, a);
    }
  }

  ghost predicate HandlesTyped(q: Query, intent: string, app: string) {
    exists contexts, text, x :: && Handles(q, intent, app, contexts) && TakesContext(q, contexts)
                                && HasResult(q, app, text) && ReadsChannelOf(text, x)
  }

  lemma TypedCandidateExact(q: Query, intent: string, app: string)
    ensures TypedCandidate(q, intent, app) <==> HandlesTyped(q, intent, app)
  {
    var text := ResultOf(q, app);
    forall c ensures Candidate(q, intent, app) == Some(c) <==> Handles(q, intent, app, c) {
      CandidateExact(q, intent, app, c);
    }
    forall u ensures HasResult(q, app, u) <==> u == text {
      ResultOfExact(q, app, u);
    }
    forall x ensures TypedChannelContext(text) == Some(x) <==> ReadsChannelOf(text, x) {
      TypedChannelContextExact(text, x);
    }
    if TypedCandidate(q, intent, app) {
      var c := Candidate(q, intent, app).value;
      var x := TypedChannelContext(text).value;
      assert Handles(q, intent, app, c) && TakesContext(q, c) && HasResult(q, app, text) && ReadsChannelOf(text, x);
    }
  }
}
