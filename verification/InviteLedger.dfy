/** The channel requests an application can make, and the ledger of invitation
    tokens they keep: who may enter a private channel, and at what price. */
module InviteLedger {
  import opened Basics
  import opened Channels
  import opened ChannelRuns

  datatype Reply = Done | NoChannelFound | AccessDenied | ChannelCreationFailed

  /** Requests of applications, plus the administrator's create and delete. */
  datatype Request =
    | JoinUserChannel(who: Instance, rawId: string)
    | JoinPrivateChannel(who: Instance, channel: ChannelId, token: Option<Token>)
    | LeaveCurrentChannel(who: Instance)
    | LeavePrivateChannel(who: Instance, channel: ChannelId)
    | CreatePrivateChannel(who: Instance, generated: ChannelId)
    | CreateInvitation(who: Instance, channel: ChannelId, allowed: Option<Instance>, newToken: Token)
    | DisconnectPrivateChannel(who: Instance, channel: ChannelId)
    | AdminCreate(channel: ChannelId, kind: string)
    | AdminDelete(channel: ChannelId)

  /** A bare user channel name gets the `user:` prefix. */
  function QualifiedId(rawId: string): ChannelId {
    if ':' in rawId then rawId else "user:" + rawId
  }

  predicate IsOwner(s: State, i: Instance, c: ChannelId) {
    c in s.owners && s.owners[c] == i
  }

  /** Whether a join request carries a token that the channel accepts. */
  predicate Invited(s: State, i: Instance, c: ChannelId, token: Option<Token>) {
    token.Some? && token.value != "" && InviteAccepts(s, c, token.value, i)
  }

  function ReplyTo(s: State, r: Request): Reply {
    match r
    case JoinUserChannel(i, rawId) =>
      var c := QualifiedId(rawId);
      if c !in s.channels || s.channels[c].kind != "user" then NoChannelFound else Done
    case JoinPrivateChannel(i, c, token) =>
      if !IsPrivate(s, c) then NoChannelFound
      else if !IsOwner(s, i, c) && !Invited(s, i, c, token) then AccessDenied
      else Done
    case LeaveCurrentChannel(i) => Done
    case LeavePrivateChannel(i, c) =>
      if !IsPrivate(s, c) then NoChannelFound
      else if CurrentChannel(s, i) != Some(c) then AccessDenied
      else Done
    case CreatePrivateChannel(i, generated) =>
      if generated in s.channels then ChannelCreationFailed else Done
    case CreateInvitation(i, c, _, _) =>
      if !IsPrivate(s, c) then NoChannelFound
      else if !IsOwner(s, i, c) then AccessDenied
      else Done
    case DisconnectPrivateChannel(i, c) =>
      if !IsPrivate(s, c) then NoChannelFound
      else if !IsOwner(s, i, c) && i !in s.channels[c].members then AccessDenied
      else Done
    case AdminCreate(_, _) => Done
    case AdminDelete(c) => if c in s.channels then Done else NoChannelFound
  }

  /** The state after a request; a refused request changes nothing. */
  function Serve(s: State, r: Request): State {
    if ReplyTo(s, r) != Done then s
    else match r
      case JoinUserChannel(i, rawId) => Join(s, i, QualifiedId(rawId))
      case JoinPrivateChannel(i, c, token) =>
        if IsOwner(s, i, c) then Join(s, i, c) else Join(ConsumeInvite(s, c, token.value, i), i, c)
      case LeaveCurrentChannel(i) => Leave(s, i)
      case LeavePrivateChannel(i, c) => Leave(s, i)
      case CreatePrivateChannel(i, generated) => CreatePrivate(s, i, generated)
      case CreateInvitation(_, c, allowed, token) => CreateInvite(s, c, allowed, token)
      case DisconnectPrivateChannel(_, c) => Destroy(s, c)
      case AdminCreate(c, kind) => Create(s, c, kind)
      case AdminDelete(c) => Delete(s, c)
  }

  /** The request handlers over a channel manager. */
  class ChannelHandlers {
    const manager: ChannelManager

    constructor (manager: ChannelManager)
      ensures this.manager == manager
    {
      this.manager := manager;
    }

    method IsPrivateChannel(c: ChannelId) returns (yes: bool)
      requires manager.Valid()
      ensures yes <==> IsPrivate(manager.View(), c)
    {
      yes := c in manager.channels && manager.channels[c].kind == "private";
    }

    method OwnerIs(i: Instance, c: ChannelId) returns (yes: bool)
      ensures yes <==> IsOwner(manager.View(), i, c)
    {
      yes := c in manager.privateOwners && manager.privateOwners[c] == i;
    }

    method HandleJoinUserChannel(i: Instance, rawId: string) returns (reply: Reply)
      requires manager.Valid()
      modifies manager, manager.channels.Values
      ensures manager.Valid()
      ensures manager.View() == Serve(old(manager.View()), JoinUserChannel(i, rawId))
      ensures reply == ReplyTo(old(manager.View()), JoinUserChannel(i, rawId))
    {
      var c := if ':' in rawId then rawId else "user:" + rawId;
      if c !in manager.channels || manager.channels[c].kind != "user" {
        return NoChannelFound;
      }
      manager.JoinChannel(i, c);
      return Done;
    }

    method HandleJoinPrivateChannel(i: Instance, c: ChannelId, token: Option<Token>) returns (reply: Reply)
      requires manager.Valid()
      modifies manager, manager.channels.Values
      ensures manager.Valid()
      ensures manager.View() == Serve(old(manager.View()), JoinPrivateChannel(i, c, token))
      ensures reply == ReplyTo(old(manager.View()), JoinPrivateChannel(i, c, token))
    {
      var isPrivate := IsPrivateChannel(c);
      if !isPrivate {
        return NoChannelFound;
      }
      var isOwner := OwnerIs(i, c);
      if !isOwner {
        var validInvite := false;
        if token.Some? && token.value != "" {
          validInvite := manager.ConsumePrivateChannelInvite(c, token.value, i);
        }
        if !validInvite {
          return AccessDenied;
        }
      }
      manager.JoinChannel(i, c);
      return Done;
    }

    method HandleLeaveCurrentChannel(i: Instance) returns (reply: Reply)
      requires manager.Valid()
      modifies manager, manager.channels.Values
      ensures manager.Valid()
      ensures manager.View() == Serve(old(manager.View()), LeaveCurrentChannel(i))
      ensures reply == Done
    {
      manager.LeaveCurrentChannel(i);
      return Done;
    }

    method HandleCreatePrivateChannel(i: Instance, generated: ChannelId) returns (reply: Reply)
      requires manager.Valid()
      modifies manager
      ensures manager.Valid()
      ensures manager.View() == Serve(old(manager.View()), CreatePrivateChannel(i, generated))
      ensures reply == ReplyTo(old(manager.View()), CreatePrivateChannel(i, generated))
    {
      var r := manager.CreatePrivateChannel(i, None, generated);
      return if r.Err? then ChannelCreationFailed else Done;
    }

    method HandleLeavePrivateChannel(i: Instance, c: ChannelId) returns (reply: Reply)
      requires manager.Valid()
      modifies manager, manager.channels.Values
      ensures manager.Valid()
      ensures manager.View() == Serve(old(manager.View()), LeavePrivateChannel(i, c))
      ensures reply == ReplyTo(old(manager.View()), LeavePrivateChannel(i, c))
    {
      var isPrivate := IsPrivateChannel(c);
      if !isPrivate {
        return NoChannelFound;
      }
      var current := manager.GetCurrentChannel(i);
      if current != Some(c) {
        return AccessDenied;
      }
      manager.LeaveCurrentChannel(i);
      return Done;
    }

    method HandleCreateInvitation(i: Instance, c: ChannelId, allowed: Option<Instance>, token: Token)
      returns (reply: Reply)
      requires manager.Valid()
      modifies manager
      ensures manager.Valid()
      ensures manager.View() == Serve(old(manager.View()), CreateInvitation(i, c, allowed, token))
      ensures reply == ReplyTo(old(manager.View()), CreateInvitation(i, c, allowed, token))
    {
      var isPrivate := IsPrivateChannel(c);
      if !isPrivate {
        return NoChannelFound;
      }
      var isOwner := OwnerIs(i, c);
      if !isOwner {
        return AccessDenied;
      }
      var _ := manager.CreatePrivateChannelInvite(c, allowed, token);
      return Done;
    }

    method HandleDisconnectPrivateChannel(i: Instance, c: ChannelId) returns (reply: Reply)
      requires manager.Valid()
      modifies manager
      ensures manager.Valid()
      ensures manager.View() == Serve(old(manager.View()), DisconnectPrivateChannel(i, c))
      ensures reply == ReplyTo(old(manager.View()), DisconnectPrivateChannel(i, c))
    {
      var isPrivate := IsPrivateChannel(c);
      if !isPrivate {
        return NoChannelFound;
      }
      var isOwner := OwnerIs(i, c);
      if !isOwner && i !in manager.channels[c].members {
        return AccessDenied;
      }
      manager.DestroyPrivateChannel(c);
      return Done;
    }
  }

  // ---------- The ledger ----------

  type Issue = map<Token, Option<Instance>>
  type Spending = map<Token, Instance>

  /** Beside the state: per live channel, every token issued and who consumed
      which; and over all time, every token generated and every one consumed. */
  datatype Ledger = Ledger(
    state: State,
    issued: map<ChannelId, Issue>,
    consumed: map<ChannelId, Spending>,
    used: set<Token>,
    spent: set<Token>)

  const OPENING: Ledger := Ledger(EMPTY, map[], map[], {}, {})

  function Issued(l: Ledger, c: ChannelId): Issue {
    if c in l.issued then l.issued[c] else map[]
  }

  function Consumed(l: Ledger, c: ChannelId): Spending {
    if c in l.consumed then l.consumed[c] else map[]
  }

  /** Carries the ledger over one request. */
  function Account(l: Ledger, r: Request): Ledger {
    var next := l.(state := Serve(l.state, r));
    if ReplyTo(l.state, r) != Done then next
    else match r
      case CreateInvitation(_, c, allowed, token) =>
        next.(issued := l.issued[c := Issued(l, c)[token := allowed]], used := l.used + {token})
      case JoinPrivateChannel(i, c, token) =>
        if IsOwner(l.state, i, c) then next
        else next.(consumed := l.consumed[c := Consumed(l, c)[token.value := i]], spent := l.spent + {token.value})
      case DisconnectPrivateChannel(_, c) => next.(issued := l.issued - {c}, consumed := l.consumed - {c})
      case AdminDelete(c) => next.(issued := l.issued - {c}, consumed := l.consumed - {c})
      case _ => next
  }

  function RunLedger(rs: seq<Request>): Ledger {
    if rs == [] then OPENING else Account(RunLedger(rs[..|rs| - 1]), rs[|rs| - 1])
  }

  /** Generated tokens never repeat. */
  predicate FreshTokens(rs: seq<Request>) {
    rs == [] ||
    (FreshTokens(rs[..|rs| - 1]) &&
     (rs[|rs| - 1].CreateInvitation? ==> rs[|rs| - 1].newToken !in RunLedger(rs[..|rs| - 1]).used))
  }

  /** One channel's page: the tokens issued, those outstanding, those consumed
      and by whom, the recorded participants, and the owner if there is one. */
  datatype Page = Page(
    issued: Issue,
    outstanding: Issue,
    consumed: Spending,
    participants: set<Instance>,
    owner: set<Instance>)

  const BLANK: Page := Page(map[], map[], map[], {}, {})

  function PageOf(l: Ledger, c: ChannelId): Page {
    Page(Issued(l, c), Invites(l.state, c), Consumed(l, c), Participants(l.state, c),
         if c in l.state.owners then {l.state.owners[c]} else {})
  }

  /** Every issued token is either outstanding, for the instance it was issued
      to, or was consumed by an instance it admits; and every participant owns
      the channel or consumed a token for it. */
  ghost predicate Sound(p: Page) {
    && p.issued.Keys == p.outstanding.Keys + p.consumed.Keys
    && p.outstanding.Keys !! p.consumed.Keys
    && (forall t :: t in p.outstanding ==> p.outstanding[t] == p.issued[t])
    && (forall t :: t in p.consumed && p.issued[t].Some? ==> p.issued[t].value == p.consumed[t])
    && (forall i :: i in p.participants ==> i in p.owner || i in p.consumed.Values)
  }

  /** No token is on two pages. */
  ghost predicate Apart(l: Ledger) {
    forall c, d, t :: t in PageOf(l, c).issued && t in PageOf(l, d).issued ==> c == d
  }

  /** A sound page agrees with the lists of tokens generated and spent. */
  ghost predicate Booked(p: Page, used: set<Token>, spent: set<Token>) {
    && Sound(p)
    && (forall t :: t in p.issued ==> t in used)
    && (forall t :: t in p.consumed ==> t in spent)
    && (forall t :: t in p.outstanding ==> t !in spent)
  }

  /** All pages are sound, no token is on two pages, and the two lists of
      tokens agree with the pages. */
  ghost predicate Books(l: Ledger) {
    && (forall c :: Booked(PageOf(l, c), l.used, l.spent))
    && Apart(l)
    && l.spent <= l.used
  }

  /** Whoever is in a private channel is one of its recorded participants. */
  ghost predicate Recorded(s: State) {
    forall i :: i in s.current && IsPrivate(s, s.current[i]) ==> i in Participants(s, s.current[i])
  }

  /** What every run of requests keeps. Pages exist for live channels only. */
  ghost predicate LedgerInv(l: Ledger) {
    && Inv(l.state) && Recorded(l.state) && Books(l)
    && l.issued.Keys <= l.state.channels.Keys && l.consumed.Keys <= l.state.channels.Keys
  }

  // ---------- How pages change ----------

  /** Only the page of `c` differs, and it is now `p`. */
  ghost predicate Turned(l: Ledger, m: Ledger, c: ChannelId, p: Page) {
    forall d :: PageOf(m, d) == if d == c then p else PageOf(l, d)
  }

  lemma IssuingKeepsBooked(p: Page, used: set<Token>, spent: set<Token>, t: Token, allowed: Option<Instance>)
    requires Booked(p, used, spent) && t !in used && spent <= used
    ensures Booked(p.(issued := p.issued[t := allowed], outstanding := p.outstanding[t := allowed]), used + {t}, spent)
  {
  }

  lemma IssuingKeepsApart(l: Ledger, m: Ledger, c: ChannelId, t: Token)
    requires Apart(l) && forall d :: t !in PageOf(l, d).issued
    requires forall d :: PageOf(m, d).issued.Keys == PageOf(l, d).issued.Keys + (if d == c then {t} else {})
    ensures Apart(m)
  {
    forall d, e, u | u in PageOf(m, d).issued && u in PageOf(m, e).issued ensures d == e {
      assert u != t ==> u in PageOf(l, d).issued && u in PageOf(l, e).issued;
    }
  }

  lemma IssuingKeepsBooks(l: Ledger, m: Ledger, c: ChannelId, t: Token, allowed: Option<Instance>)
    requires Books(l) && t !in l.used && m.used == l.used + {t} && m.spent == l.spent
    requires var p := PageOf(l, c);
             Turned(l, m, c, p.(issued := p.issued[t := allowed], outstanding := p.outstanding[t := allowed]))
    ensures Books(m)
  {
    IssuingKeepsBooked(PageOf(l, c), l.used, l.spent, t, allowed);
    IssuingKeepsApart(l, m, c, t);
    forall d ensures Booked(PageOf(m, d), m.used, m.spent) {
      assert Booked(PageOf(l, d), l.used, l.spent);
    }
  }

  /** Consuming moves a token from the outstanding side to the consumed side,
      and pays for one participant. */
  lemma ConsumingKeepsBooked(p: Page, used: set<Token>, spent: set<Token>, t: Token, i: Instance)
    requires Booked(p, used, spent) && t in p.outstanding
    requires p.outstanding[t].Some? ==> p.outstanding[t].value == i
    ensures Booked(p.(outstanding := p.outstanding - {t}, consumed := p.consumed[t := i],
                   participants := p.participants + {i}), used, spent + {t})
  {
  }

  lemma AdmittingKeepsBooks(l: Ledger, m: Ledger, c: ChannelId, t: Token, i: Instance)
    requires Books(l) && t in PageOf(l, c).outstanding
    requires PageOf(l, c).outstanding[t].Some? ==> PageOf(l, c).outstanding[t].value == i
    requires m.used == l.used && m.spent == l.spent + {t}
    requires var p := PageOf(l, c);
             Turned(l, m, c, p.(outstanding := p.outstanding - {t}, consumed := p.consumed[t := i],
                    participants := p.participants + {i}))
    ensures Books(m)
  {
    ConsumingKeepsBooked(PageOf(l, c), l.used, l.spent, t, i);
    assert t in PageOf(l, c).issued;
    forall d ensures Booked(PageOf(m, d), m.used, m.spent) {
      assert Booked(PageOf(l, d), l.used, l.spent);
      assert d != c ==> t !in PageOf(l, d).outstanding;
    }
  }

  lemma OwnerEntryKeepsBooks(l: Ledger, m: Ledger, c: ChannelId, i: Instance)
    requires Books(l) && m.used == l.used && m.spent == l.spent && i in PageOf(l, c).owner
    requires Turned(l, m, c, PageOf(l, c).(participants := PageOf(l, c).participants + {i}))
    ensures Books(m)
  {
  }

  lemma OpeningKeepsBooks(l: Ledger, m: Ledger, c: ChannelId, i: Instance)
    requires Books(l) && m.used == l.used && m.spent == l.spent && PageOf(l, c) == BLANK
    requires Turned(l, m, c, BLANK.(participants := {i}, owner := {i}))
    ensures Books(m)
  {
  }

  lemma RemovingKeepsBooks(l: Ledger, m: Ledger, c: ChannelId)
    requires Books(l) && m.used == l.used && m.spent == l.spent && Turned(l, m, c, BLANK)
    ensures Books(m)
  {
  }

  /** Participants may be struck off any page. */
  lemma StrikingKeepsBooks(l: Ledger, m: Ledger)
    requires Books(l) && m.used == l.used && m.spent == l.spent
    requires forall d :: PageOf(m, d) == PageOf(l, d).(participants := PageOf(m, d).participants)
                         && PageOf(m, d).participants <= PageOf(l, d).participants
    ensures Books(m)
  {
  }

  // ---------- One request at a time ----------

  /** The operations behind a request. */
  ghost function OpsOf(s: State, r: Request): seq<Op> {
    if ReplyTo(s, r) != Done then []
    else match r
      case JoinUserChannel(i, rawId) => [JoinOp(i, QualifiedId(rawId))]
      case JoinPrivateChannel(i, c, token) =>
        if IsOwner(s, i, c) then [JoinOp(i, c)] else [ConsumeInviteOp(c, token.value, i), JoinOp(i, c)]
      case LeaveCurrentChannel(i) => [LeaveOp(i)]
      case LeavePrivateChannel(i, c) => [LeaveOp(i)]
      case CreatePrivateChannel(i, generated) => [CreatePrivateOp(i, None, generated)]
      case CreateInvitation(_, c, allowed, token) => [CreateInviteOp(c, allowed, token)]
      case DisconnectPrivateChannel(_, c) => [DestroyOp(c)]
      case AdminCreate(c, kind) => [CreateOp(c, kind)]
      case AdminDelete(c) => [DeleteOp(c)]
  }

  lemma ServeIsOps(s: State, r: Request)
    ensures Serve(s, r) == RunFrom(s, OpsOf(s, r))
  {
    var ops := OpsOf(s, r);
    if r.JoinPrivateChannel? && |ops| == 2 {
      assert Step(s, ops[0]) == ConsumeInvite(s, r.channel, r.token.value, r.who);
    } else if |ops| == 1 {
      assert Serve(s, r) == Step(s, ops[0]);
    }
  }

  ghost function RunFrom(s: State, ops: seq<Op>): State
    requires |ops| <= 2
  {
    if |ops| == 0 then s else if |ops| == 1 then Step(s, ops[0]) else Step(Step(s, ops[0]), ops[1])
  }

  lemma ServeKeepsInv(s: State, r: Request)
    requires Inv(s)
    ensures Inv(Serve(s, r))
  {
    var ops := OpsOf(s, r);
    ServeIsOps(s, r);
    if |ops| > 0 {
      StepKeepsInv(s, ops[0]);
    }
    if |ops| == 2 {
      StepKeepsInv(Step(s, ops[0]), ops[1]);
    }
  }

  lemma JoinKeepsRecorded(s: State, i: Instance, c: ChannelId)
    requires Recorded(s) && Inv(s)
    ensures Recorded(Join(s, i, c))
  {
    if c in s.channels {
      var t := Join(s, i, c);
      forall j | j in t.current && IsPrivate(t, t.current[j])
        ensures j in Participants(t, t.current[j])
      {
        if j != i {
          assert IsPrivate(s, s.current[j]);
        }
      }
    }
  }

  lemma LeaveKeepsRecorded(s: State, i: Instance)
    requires Recorded(s) && Inv(s)
    ensures Recorded(Leave(s, i))
  {
  }

  lemma RemovalKeepsRecorded(s: State, c: ChannelId)
    requires Recorded(s) && Inv(s)
    ensures Recorded(Delete(s, c)) && Recorded(Destroy(s, c))
  {
  }

  lemma ServeKeepsRecorded(s: State, r: Request)
    requires Recorded(s) && Inv(s)
    ensures Recorded(Serve(s, r))
  {
    if ReplyTo(s, r) == Done {
      match r
      case JoinUserChannel(i, rawId) => JoinKeepsRecorded(s, i, QualifiedId(rawId));
      case JoinPrivateChannel(i, c, token) =>
        if IsOwner(s, i, c) {
          JoinKeepsRecorded(s, i, c);
        } else {
          StepKeepsInv(s, ConsumeInviteOp(c, token.value, i));
          JoinKeepsRecorded(ConsumeInvite(s, c, token.value, i), i, c);
        }
      case LeaveCurrentChannel(i) => LeaveKeepsRecorded(s, i);
      case LeavePrivateChannel(i, c) => LeaveKeepsRecorded(s, i);
      case DisconnectPrivateChannel(_, c) => RemovalKeepsRecorded(s, c);
      case AdminDelete(c) => RemovalKeepsRecorded(s, c);
      case _ =>
    }
  }

  /** What a join does to the private-channel records. */
  lemma JoinEffects(s: State, i: Instance, c: ChannelId)
    ensures Join(s, i, c).owners == s.owners && Join(s, i, c).invites == s.invites
    ensures Join(s, i, c).channels.Keys == s.channels.Keys
    ensures Join(s, i, c).participants
            == if IsPrivate(s, c) then s.participants[c := Participants(s, c) + {i}] else s.participants
  {
    if c in s.channels {
      var t := LeaveForSwitch(s, i);
      SwitchEffects(s, i, c);
      assert Participants(t, c) == Participants(s, c) && Join(s, i, c) == Enter(t, i, c);
    }
  }

  /** Leaving a channel for another touches member lists only. */
  lemma SwitchEffects(s: State, i: Instance, c: ChannelId)
    requires c in s.channels
    ensures var t := LeaveForSwitch(s, i);
            && t == s.(channels := t.channels, events := t.events)
            && t.channels.Keys == s.channels.Keys && t.channels[c].kind == s.channels[c].kind
  {
  }

  lemma LeaveEffects(s: State, i: Instance)
    ensures Leave(s, i).owners == s.owners && Leave(s, i).invites == s.invites
    ensures Leave(s, i).channels.Keys == s.channels.Keys
    ensures Leave(s, i).participants == s.participants ||
            exists c :: c in s.participants && Leave(s, i).participants == s.participants[c := s.participants[c] - {i}]
  {
    if i in s.current && s.current[i] in s.channels {
      assert DropMember(s, s.current[i], i).channels.Keys == s.channels.Keys;
    }
  }

  lemma JoinTurnsPage(l: Ledger, m: Ledger, i: Instance, c: ChannelId)
    requires m == l.(state := Join(l.state, i, c))
    ensures Turned(l, m, c, if IsPrivate(l.state, c)
                            then PageOf(l, c).(participants := PageOf(l, c).participants + {i}) else PageOf(l, c))
  {
    JoinEffects(l.state, i, c);
  }

  lemma AccountJoin(l: Ledger, m: Ledger, i: Instance, c: ChannelId)
    requires Books(l) && m == l.(state := Join(l.state, i, c))
    requires IsPrivate(l.state, c) ==> IsOwner(l.state, i, c)
    ensures Books(m)
  {
    JoinTurnsPage(l, m, i, c);
    if IsPrivate(l.state, c) {
      OwnerEntryKeepsBooks(l, m, c, i);
    } else {
      StrikingKeepsBooks(l, m);
    }
  }

  lemma ConsumingTurnsPage(l: Ledger, mid: Ledger, c: ChannelId, token: Token, i: Instance)
    requires InviteAccepts(l.state, c, token, i)
    requires mid == l.(state := ConsumeInvite(l.state, c, token, i),
                    consumed := l.consumed[c := Consumed(l, c)[token := i]], spent := l.spent + {token})
    ensures var p := PageOf(l, c);
            Turned(l, mid, c, p.(outstanding := p.outstanding - {token}, consumed := p.consumed[token := i]))
    ensures mid.state == l.state.(invites := mid.state.invites)
  {
  }

  lemma AccountAdmission(l: Ledger, m: Ledger, i: Instance, c: ChannelId, token: Token)
    requires Books(l) && IsPrivate(l.state, c) && !IsOwner(l.state, i, c)
    requires Invited(l.state, i, c, Some(token))
    requires m == Account(l, JoinPrivateChannel(i, c, Some(token)))
    ensures Books(m)
  {
    var mid := l.(state := ConsumeInvite(l.state, c, token, i),
                  consumed := l.consumed[c := Consumed(l, c)[token := i]], spent := l.spent + {token});
    ConsumingTurnsPage(l, mid, c, token, i);
    assert m == mid.(state := Join(mid.state, i, c));
    JoinTurnsPage(mid, m, i, c);
    AdmittingKeepsBooks(l, m, c, token, i);
  }

  lemma AccountLeave(l: Ledger, m: Ledger, i: Instance)
    requires Books(l) && m == l.(state := Leave(l.state, i))
    ensures Books(m)
  {
    LeaveEffects(l.state, i);
    StrikingKeepsBooks(l, m);
  }

  lemma CreationTurnsPage(l: Ledger, m: Ledger, i: Instance, c: ChannelId)
    requires PageOf(l, c) == BLANK && c !in l.state.channels && m == l.(state := CreatePrivate(l.state, i, c))
    ensures Turned(l, m, c, BLANK.(participants := {i}, owner := {i}))
  {
  }

  lemma UnknownPageIsBlank(l: Ledger, c: ChannelId)
    requires LedgerInv(l) && c !in l.state.channels
    ensures PageOf(l, c) == BLANK
  {
  }

  lemma AccountCreation(l: Ledger, m: Ledger, i: Instance, c: ChannelId)
    requires LedgerInv(l) && c !in l.state.channels && m == l.(state := CreatePrivate(l.state, i, c))
    ensures Books(m)
  {
    UnknownPageIsBlank(l, c);
    CreationTurnsPage(l, m, i, c);
    OpeningKeepsBooks(l, m, c, i);
  }

  lemma InvitationTurnsPage(l: Ledger, m: Ledger, i: Instance, c: ChannelId, allowed: Option<Instance>, t: Token)
    requires IsPrivate(l.state, c) && IsOwner(l.state, i, c)
    requires m == Account(l, CreateInvitation(i, c, allowed, t))
    ensures var p := PageOf(l, c);
            Turned(l, m, c, p.(issued := p.issued[t := allowed], outstanding := p.outstanding[t := allowed]))
  {
  }

  lemma AccountInvitation(l: Ledger, m: Ledger, i: Instance, c: ChannelId, allowed: Option<Instance>, t: Token)
    requires Books(l) && IsPrivate(l.state, c) && IsOwner(l.state, i, c) && t !in l.used
    requires m == Account(l, CreateInvitation(i, c, allowed, t))
    ensures Books(m)
  {
    InvitationTurnsPage(l, m, i, c, allowed, t);
    IssuingKeepsBooks(l, m, c, t, allowed);
  }

  lemma RemovalTurnsPage(l: Ledger, m: Ledger, c: ChannelId)
    requires c in l.state.channels
    requires m.state == Delete(l.state, c) || m.state == Destroy(l.state, c)
    requires m == l.(state := m.state, issued := l.issued - {c}, consumed := l.consumed - {c})
    ensures Turned(l, m, c, BLANK)
  {
  }

  lemma AccountRemoval(l: Ledger, m: Ledger, c: ChannelId)
    requires Books(l) && c in l.state.channels
    requires m.state == Delete(l.state, c) || m.state == Destroy(l.state, c)
    requires m == l.(state := m.state, issued := l.issued - {c}, consumed := l.consumed - {c})
    ensures Books(m)
  {
    RemovalTurnsPage(l, m, c);
    RemovingKeepsBooks(l, m, c);
  }

  lemma JoiningKeepsBooks(l: Ledger, r: Request)
    requires LedgerInv(l) && (r.JoinUserChannel? || r.JoinPrivateChannel?) && ReplyTo(l.state, r) == Done
    ensures Books(Account(l, r))
  {
    var m := Account(l, r);
    match r
    case JoinUserChannel(i, rawId) => AccountJoin(l, m, i, QualifiedId(rawId));
    case JoinPrivateChannel(i, c, token) =>
      if IsOwner(l.state, i, c) {
        AccountJoin(l, m, i, c);
      } else {
        AccountAdmission(l, m, i, c, token.value);
      }
  }

  lemma LeavingKeepsBooks(l: Ledger, r: Request)
    requires LedgerInv(l) && (r.LeaveCurrentChannel? || r.LeavePrivateChannel?) && ReplyTo(l.state, r) == Done
    ensures Books(Account(l, r))
  {
    AccountLeave(l, Account(l, r), r.who);
  }

  lemma AccountAdminCreation(l: Ledger, m: Ledger, c: ChannelId, kind: string)
    requires Books(l) && m == l.(state := Create(l.state, c, kind))
    ensures Books(m)
  {
    assert forall d :: PageOf(m, d) == PageOf(l, d);
    StrikingKeepsBooks(l, m);
  }

  lemma CreatingKeepsBooks(l: Ledger, r: Request)
    requires LedgerInv(l) && (r.CreatePrivateChannel? || r.AdminCreate?) && ReplyTo(l.state, r) == Done
    ensures Books(Account(l, r))
  {
    if r.CreatePrivateChannel? {
      AccountCreation(l, Account(l, r), r.who, r.generated);
    } else {
      AccountAdminCreation(l, Account(l, r), r.channel, r.kind);
    }
  }

  lemma ClosingKeepsBooks(l: Ledger, r: Request)
    requires LedgerInv(l) && (r.DisconnectPrivateChannel? || r.AdminDelete?) && ReplyTo(l.state, r) == Done
    ensures Books(Account(l, r))
  {
    AccountRemoval(l, Account(l, r), r.channel);
  }

  lemma AccountKeepsBooks(l: Ledger, r: Request)
    requires LedgerInv(l)
    requires r.CreateInvitation? ==> r.newToken !in l.used
    ensures Books(Account(l, r))
  {
    if ReplyTo(l.state, r) != Done {
      assert Account(l, r) == l;
    } else if r.JoinUserChannel? || r.JoinPrivateChannel? {
      JoiningKeepsBooks(l, r);
    } else if r.LeaveCurrentChannel? || r.LeavePrivateChannel? {
      LeavingKeepsBooks(l, r);
    } else if r.CreatePrivateChannel? || r.AdminCreate? {
      CreatingKeepsBooks(l, r);
    } else if r.CreateInvitation? {
      AccountInvitation(l, Account(l, r), r.who, r.channel, r.allowed, r.newToken);
    } else {
      ClosingKeepsBooks(l, r);
    }
  }

  lemma AccountKeepsPagesLive(l: Ledger, r: Request)
    requires l.issued.Keys <= l.state.channels.Keys && l.consumed.Keys <= l.state.channels.Keys
    ensures var m := Account(l, r);
            m.issued.Keys <= m.state.channels.Keys && m.consumed.Keys <= m.state.channels.Keys
  {
    if ReplyTo(l.state, r) == Done {
      match r
      case JoinUserChannel(i, rawId) => JoinEffects(l.state, i, QualifiedId(rawId));
      case JoinPrivateChannel(i, c, token) =>
        JoinEffects(l.state, i, c);
        if !IsOwner(l.state, i, c) {
          JoinEffects(ConsumeInvite(l.state, c, token.value, i), i, c);
        }
      case LeaveCurrentChannel(i) => LeaveEffects(l.state, i);
      case LeavePrivateChannel(i, c) => LeaveEffects(l.state, i);
      case _ =>
    }
  }

  lemma AccountKeepsInv(l: Ledger, r: Request)
    requires LedgerInv(l)
    requires r.CreateInvitation? ==> r.newToken !in l.used
    ensures LedgerInv(Account(l, r))
  {
    ServeKeepsInv(l.state, r);
    ServeKeepsRecorded(l.state, r);
    AccountKeepsBooks(l, r);
    AccountKeepsPagesLive(l, r);
    assert Account(l, r).state == Serve(l.state, r);
  }

  // ---------- Whole runs ----------

  lemma {:induction false} RunKeepsLedger(rs: seq<Request>)
    requires FreshTokens(rs)
    ensures LedgerInv(RunLedger(rs))
  {
    if rs != [] {
      RunKeepsLedger(rs[..|rs| - 1]);
      AccountKeepsInv(RunLedger(rs[..|rs| - 1]), rs[|rs| - 1]);
    }
  }

  lemma ImageIsNoLarger(m: Spending, payers: set<Instance>)
    requires payers <= m.Values
    ensures |payers| <= |m|
    decreases |m|
  {
    if payers != {} {
      var t :| t in m && m[t] in payers;
      var rest := m - {t};
      assert rest.Keys == m.Keys - {t};
      assert |rest.Keys| == |rest|;
      forall j | j in payers - {m[t]} ensures j in rest.Values {
        var u :| u in m && m[u] == j;
        assert rest[u] == j;
      }
      ImageIsNoLarger(rest, payers - {m[t]});
    }
  }

  /** Nobody sits in a private channel unpaid: every listed member is the owner
      or has consumed a token issued for this very channel, one that was open
      or named that instance. */
  lemma MembersWereAdmitted(rs: seq<Request>, c: ChannelId, i: Instance)
    requires FreshTokens(rs) && IsPrivate(RunLedger(rs).state, c)
    requires i in RunLedger(rs).state.channels[c].members && !IsOwner(RunLedger(rs).state, i, c)
    ensures var l := RunLedger(rs);
            exists t :: t in Consumed(l, c) && Consumed(l, c)[t] == i && t in Issued(l, c)
                        && (Issued(l, c)[t] == None || Issued(l, c)[t] == Some(i))
  {
    var l := RunLedger(rs);
    RunKeepsLedger(rs);
    assert Count(l.state.channels[c].members, i) == Share(l.state.current, l.state.owners, c, i);
    assert i in Participants(l.state, c);
    assert Sound(PageOf(l, c));
    var t :| t in Consumed(l, c) && Consumed(l, c)[t] == i;
    assert t in PageOf(l, c).issued;
  }

  /** Per channel, the tokens issued are those outstanding plus those consumed,
      and there are never more participants besides the owner than tokens
      consumed. */
  lemma TokensConserved(rs: seq<Request>, c: ChannelId)
    requires FreshTokens(rs)
    ensures var l := RunLedger(rs);
            && |Issued(l, c)| == |Invites(l.state, c)| + |Consumed(l, c)|
            && |Participants(l.state, c) - PageOf(l, c).owner| <= |Consumed(l, c)|
  {
    var l := RunLedger(rs);
    RunKeepsLedger(rs);
    assert Sound(PageOf(l, c));
    assert |Issued(l, c).Keys| == |Invites(l.state, c).Keys| + |Consumed(l, c).Keys|;
    ImageIsNoLarger(Consumed(l, c), Participants(l.state, c) - PageOf(l, c).owner);
  }

  lemma {:induction false} SpentStaysSpent(rs: seq<Request>, more: seq<Request>)
    ensures RunLedger(rs).spent <= RunLedger(rs + more).spent
  {
    if more == [] {
      assert rs + more == rs;
    } else {
      SpentStaysSpent(rs, more[..|more| - 1]);
      assert (rs + more)[..|rs + more| - 1] == rs + more[..|more| - 1];
    }
  }

  /** Once consumed, a token is accepted by no channel, for no instance, at any
      later time. */
  lemma TokenConsumedOnce(rs: seq<Request>, more: seq<Request>, t: Token, c: ChannelId, i: Instance)
    requires FreshTokens(rs + more) && t in RunLedger(rs).spent
    ensures !InviteAccepts(RunLedger(rs + more).state, c, t, i)
  {
    SpentStaysSpent(rs, more);
    RunKeepsLedger(rs + more);
    assert t !in PageOf(RunLedger(rs + more), c).outstanding;
  }
}
