// The support desk's tickets, and the drafts, messages and audit rows that belong to them. Every
// operation is one transaction over the four tables; an operation that fails writes nothing.
module SupportDesk {
  import opened Text

  // --- Rows; a row's id is its position, since rows are only ever added ---

  datatype State = New | Classified | AwaitingApproval | Approved | Replied | Closed | Rejected | Spam

  datatype Ticket = Ticket(
    tenant: string, requester: string, subject: string, body: string, state: State,
    category: Option<string>, confidence: Option<string>)

  datatype Approval = Approval(approver: string, body: string)

  datatype Suggestion = Suggestion(ticket: nat, body: string, model: string, approval: Option<Approval>)

  datatype Audit = Audit(tenant: string, ticket: nat, actor: string, action: string, detail: string)

  datatype Mail = Mail(tenant: string, ticket: nat, recipient: string, body: string)

  datatype Tables = Tables(tickets: seq<Ticket>, suggestions: seq<Suggestion>, audit: seq<Audit>, outbox: seq<Mail>)

  datatype Principal = Principal(subject: string, tenant: string, roles: set<string>)

  datatype Error =
    | Forbidden
    | InvalidField(field: string)
    | NotFound(id: nat)
    | TransitionRefused(state: State, action: string)
    | SuggestionNotFound(id: nat)
    | ApprovalRequired(id: nat)

  datatype Result<T> = Success(value: T) | Failure(error: Error)

  const SUPPORT_LEAD := "support_lead"
  const STAFF: set<string> := {"support_agent", SUPPORT_LEAD}
  const MAX_SUBJECT: nat := 200
  const MAX_BODY: nat := 4000
  const CATEGORIES: set<string> := {"refund", "question", "complaint", "abuse"}
  const CONFIDENCES: set<string> := {"low", "medium", "high"}

  predicate Holds(principal: Principal, roles: set<string>) {
    principal.roles * roles != {}
  }

  lemma StaffRoles(principal: Principal)
    ensures Holds(principal, STAFF) <==> "support_agent" in principal.roles || "support_lead" in principal.roles
    ensures Holds(principal, {SUPPORT_LEAD}) <==> "support_lead" in principal.roles
  {
    if "support_agent" in principal.roles {
      assert "support_agent" in principal.roles * STAFF;
    }
    if "support_lead" in principal.roles {
      assert "support_lead" in principal.roles * STAFF && "support_lead" in principal.roles * {SUPPORT_LEAD};
    }
  }

  // Staff see the tenant, everyone else their own tickets in it.
  predicate Visible(principal: Principal, ticket: Ticket) {
    ticket.tenant == principal.tenant && (Holds(principal, STAFF) || ticket.requester == principal.subject)
  }

  predicate Sees(principal: Principal, tickets: seq<Ticket>, id: nat) {
    id < |tickets| && Visible(principal, tickets[id])
  }

  // --- The lifecycle ---

  datatype Move = Classify | Draft | Approve | Send | Close | Reject | MarkSpam

  predicate MayLeave(state: State, move: Move) {
    match move
    case Classify => state == New
    case Draft => state == Classified
    case Approve => state == AwaitingApproval
    case Send => state == Approved
    case Close => state == Replied
    case Reject => state == New || state == Classified
    case MarkSpam => state == New
  }

  function Target(move: Move): State {
    match move
    case Classify => Classified
    case Draft => AwaitingApproval
    case Approve => Approved
    case Send => Replied
    case Close => Closed
    case Reject => Rejected
    case MarkSpam => Spam
  }

  // The name a move is asked for by, and the name it leaves in the audit trail.
  function Name(move: Move): string {
    match move
    case Classify => "classify"
    case Draft => "draft"
    case Approve => "approve"
    case Send => "send"
    case Close => "close"
    case Reject => "reject"
    case MarkSpam => "mark_spam"
  }

  function Action(move: Move): string {
    match move
    case Classify => "classified"
    case Draft => "drafted"
    case Approve => "approved"
    case Send => "replied"
    case Close => "closed"
    case Reject => "rejected"
    case MarkSpam => "spam"
  }

  const OPENED := "opened"

  function MoveOf(action: string): (move: Option<Move>)
    ensures move.Some? ==> Action(move.value) == action
    ensures move.None? ==> forall any: Move :: Action(any) != action
  {
    if action == "classified" then Some(Classify)
    else if action == "drafted" then Some(Draft)
    else if action == "approved" then Some(Approve)
    else if action == "replied" then Some(Send)
    else if action == "closed" then Some(Close)
    else if action == "rejected" then Some(Reject)
    else if action == "spam" then Some(MarkSpam)
    else None
  }

  predicate NamesNoMove(action: string) {
    action != OPENED && MoveOf(action).None?
  }

  // --- Reading a trail back ---

  // The state an action leads to, or none when the lifecycle does not allow it there.
  function Next(state: State, action: string): Option<State> {
    if action == OPENED then None
    else
      var move := MoveOf(action);
      if move.None? then Some(state)
      else if MayLeave(state, move.value) then Some(Target(move.value))
      else None
  }

  // The state a trail says its ticket is in, if the lifecycle allows the trail at all.
  function Replay(actions: seq<string>): Option<State> {
    if actions == [] then None
    else if |actions| == 1 then if actions[0] == OPENED then Some(New) else None
    else
      var n := |actions| - 1;
      var before := Replay(actions[..n]);
      if before.None? then None else Next(before.value, actions[n])
  }

  lemma ReplayOneMore(actions: seq<string>, action: string)
    requires Replay(actions).Some?
    ensures Replay(actions + [action]) == Next(Replay(actions).value, action)
  {
    assert (actions + [action])[..|actions|] == actions;
  }

  function MoveCount(actions: seq<string>): nat {
    if actions == [] then 0
    else var n := |actions| - 1; MoveCount(actions[..n]) + if MoveOf(actions[n]).Some? then 1 else 0
  }

  // The least and most moves that lead to a state.
  function MostMoves(state: State): nat {
    match state
    case New => 0
    case Classified => 1
    case AwaitingApproval => 2
    case Approved => 3
    case Replied => 4
    case Closed => 5
    case Rejected => 2
    case Spam => 1
  }

  function LeastMoves(state: State): nat {
    if state == Rejected then 1 else MostMoves(state)
  }

  lemma {:induction false} TrailsAreShort(actions: seq<string>)
    requires Replay(actions).Some?
    ensures LeastMoves(Replay(actions).value) <= MoveCount(actions) <= MostMoves(Replay(actions).value) <= 5
  {
    var n := |actions| - 1;
    if n == 0 {
      assert actions[..0] == [];
      assert MoveOf(OPENED).None?;
    } else {
      TrailsAreShort(actions[..n]);
    }
  }

  // The bounds are met: some trail to each state has as many moves, and some as few.
  lemma BoundsAreMet(state: State) returns (long: seq<string>, short: seq<string>)
    ensures Replay(long) == Some(state) == Replay(short)
    ensures MoveCount(long) == MostMoves(state) && MoveCount(short) == LeastMoves(state)
  {
    var first := [OPENED];
    OpenedIsNew();
    assert MoveCount([OPENED][..0]) == 0 && MoveOf(OPENED).None?;
    match state
    case New => long, short := first, first;
    case Spam => long := OneMoreMove(first, MarkSpam); short := long;
    case Rejected =>
      short := OneMoreMove(first, Reject);
      long := OneMoreMove(first, Classify);
      long := OneMoreMove(long, Reject);
    case _ =>
      long := OneMoreMove(first, Classify);
      if state != Classified { long := OneMoreMove(long, Draft); }
      if state != Classified && state != AwaitingApproval { long := OneMoreMove(long, Approve); }
      if state == Replied || state == Closed { long := OneMoreMove(long, Send); }
      if state == Closed { long := OneMoreMove(long, Close); }
      short := long;
  }

  lemma OneMoreMove(actions: seq<string>, move: Move) returns (longer: seq<string>)
    requires Replay(actions).Some? && MayLeave(Replay(actions).value, move)
    ensures Replay(longer) == Some(Target(move)) && MoveCount(longer) == MoveCount(actions) + 1
  {
    longer := actions + [Action(move)];
    ReplayOneMore(actions, Action(move));
    MovesReplay(Replay(actions).value, move);
    assert longer[..|actions|] == actions;
    hide Replay, MayLeave;
    assert MoveOf(Action(move)).Some?;
  }

  // --- The rows of one ticket, oldest first ---

  function Drafts(rows: seq<Suggestion>, t: nat): seq<Suggestion> {
    if rows == [] then [] else
      var n := |rows| - 1;
      Drafts(rows[..n], t) + if rows[n].ticket == t then [rows[n]] else []
  }

  function Mails(rows: seq<Mail>, t: nat): seq<Mail> {
    if rows == [] then [] else
      var n := |rows| - 1;
      Mails(rows[..n], t) + if rows[n].ticket == t then [rows[n]] else []
  }

  function Actions(rows: seq<Audit>, t: nat): seq<string> {
    if rows == [] then [] else
      var n := |rows| - 1;
      Actions(rows[..n], t) + if rows[n].ticket == t then [rows[n].action] else []
  }

  function Trail(rows: seq<Audit>, t: nat): seq<Audit> {
    if rows == [] then [] else
      var n := |rows| - 1;
      Trail(rows[..n], t) + if rows[n].ticket == t then [rows[n]] else []
  }

  // The newest draft of a ticket; with `approved`, the newest that was approved.
  function Newest(rows: seq<Suggestion>, t: nat, approved: bool): (k: Option<nat>)
    ensures k.Some? ==> k.value < |rows| && rows[k.value].ticket == t && (approved ==> rows[k.value].approval.Some?)
    ensures k.None? ==> forall j :: 0 <= j < |rows| && rows[j].ticket == t ==> approved && rows[j].approval.None?
    ensures k.Some? ==> forall j :: k.value < j < |rows| && rows[j].ticket == t ==> approved && rows[j].approval.None?
  {
    if rows == [] then None
    else if rows[|rows| - 1].ticket == t && (approved ==> rows[|rows| - 1].approval.Some?) then Some(|rows| - 1)
    else Newest(rows[..|rows| - 1], t, approved)
  }

  // --- What ties the tables together ---

  predicate HasDraft(state: State) {
    state == AwaitingApproval || IsApproved(state)
  }

  predicate IsApproved(state: State) {
    state == Approved || IsSent(state)
  }

  predicate IsSent(state: State) {
    state == Replied || state == Closed
  }

  // A ticket's draft, if its state says there is one: as the check left it, and approved or not.
  predicate DraftsOk(ticket: Ticket, drafts: seq<Suggestion>) {
    if HasDraft(ticket.state) then
      && |drafts| == 1
      && Stored(drafts[0].body, MAX_BODY)
      && (drafts[0].approval.Some? <==> IsApproved(ticket.state))
      && (drafts[0].approval.Some? ==> Stored(drafts[0].approval.value.body, MAX_BODY))
    else drafts == []
  }

  // A ticket's one message, if its state says it was sent: to its requester, in its tenant, and
  // with the very text a person approved.
  predicate MailsOk(t: nat, ticket: Ticket, drafts: seq<Suggestion>, mails: seq<Mail>) {
    if IsSent(ticket.state)
    then |drafts| == 1 && drafts[0].approval.Some? &&
      mails == [Mail(ticket.tenant, t, ticket.requester, drafts[0].approval.value.body)]
    else mails == []
  }

  predicate TicketOk(db: Tables, t: nat)
    requires t < |db.tickets|
  {
    && DraftsOk(db.tickets[t], Drafts(db.suggestions, t))
    && MailsOk(t, db.tickets[t], Drafts(db.suggestions, t), Mails(db.outbox, t))
  }

  // No row belongs to a ticket that does not exist, and a trail stays in its ticket's tenant.
  predicate NoOrphans(db: Tables) {
    && (forall k :: 0 <= k < |db.suggestions| ==> db.suggestions[k].ticket < |db.tickets|)
    && (forall k :: 0 <= k < |db.outbox| ==> db.outbox[k].ticket < |db.tickets|)
    && (forall k :: 0 <= k < |db.audit| ==>
          db.audit[k].ticket < |db.tickets| && db.audit[k].tenant == db.tickets[db.audit[k].ticket].tenant)
  }

  predicate Consistent(db: Tables) {
    NoOrphans(db) && forall t :: 0 <= t < |db.tickets| ==> TicketOk(db, t)
  }

  // Every trail, read back, gives the state its ticket is in.
  predicate Replays(db: Tables) {
    forall t :: 0 <= t < |db.tickets| ==> Replay(Actions(db.audit, t)) == Some(db.tickets[t].state)
  }

  lemma {:induction false} NoDraftsOf(rows: seq<Suggestion>, t: nat)
    requires forall k :: 0 <= k < |rows| ==> rows[k].ticket != t
    ensures Drafts(rows, t) == []
  {
    if rows != [] {
      NoDraftsOf(rows[..|rows| - 1], t);
    }
  }

  lemma {:induction false} NoMailsOf(rows: seq<Mail>, t: nat)
    requires forall k :: 0 <= k < |rows| ==> rows[k].ticket != t
    ensures Mails(rows, t) == []
  {
    if rows != [] {
      NoMailsOf(rows[..|rows| - 1], t);
    }
  }

  lemma {:induction false} NoActionsOf(rows: seq<Audit>, t: nat)
    requires forall k :: 0 <= k < |rows| ==> rows[k].ticket != t
    ensures Actions(rows, t) == []
  {
    if rows != [] {
      NoActionsOf(rows[..|rows| - 1], t);
    }
  }

  lemma NoRowsYet(db: Tables, t: nat)
    requires NoOrphans(db) && t >= |db.tickets|
    ensures Drafts(db.suggestions, t) == [] && Mails(db.outbox, t) == [] && Actions(db.audit, t) == []
  {
    NoDraftsOf(db.suggestions, t);
    NoMailsOf(db.outbox, t);
    NoActionsOf(db.audit, t);
  }

  lemma OneMoreDraft(rows: seq<Suggestion>, row: Suggestion, t: nat)
    ensures Drafts(rows + [row], t) == Drafts(rows, t) + if row.ticket == t then [row] else []
  {
    assert (rows + [row])[..|rows|] == rows;
  }

  lemma OneMoreMail(rows: seq<Mail>, row: Mail, t: nat)
    ensures Mails(rows + [row], t) == Mails(rows, t) + if row.ticket == t then [row] else []
  {
    assert (rows + [row])[..|rows|] == rows;
  }

  lemma OneMoreAction(rows: seq<Audit>, row: Audit, t: nat)
    ensures Actions(rows + [row], t) == Actions(rows, t) + if row.ticket == t then [row.action] else []
  {
    assert (rows + [row])[..|rows|] == rows;
  }

  // Rewriting the newest draft of a ticket rewrites the last of its drafts, and no other ticket's.
  lemma {:induction false} DraftRewritten(rows: seq<Suggestion>, k: nat, row: Suggestion)
    requires k < |rows| && rows[k].ticket == row.ticket
    requires forall j :: k < j < |rows| ==> rows[j].ticket != row.ticket
    ensures var own := Drafts(rows, row.ticket);
      own != [] && own[|own| - 1] == rows[k] && Drafts(rows[k := row], row.ticket) == own[..|own| - 1] + [row]
  {
    var n := |rows| - 1;
    if k == n {
      assert rows[k := row][..n] == rows[..n];
    } else {
      DraftRewritten(rows[..n], k, row);
      assert rows[k := row][..n] == rows[..n][k := row];
      assert Drafts(rows, row.ticket) == Drafts(rows[..n], row.ticket);
      assert Drafts(rows[k := row], row.ticket) == Drafts(rows[..n][k := row], row.ticket);
    }
  }

  lemma {:induction false} OtherDraftsStay(rows: seq<Suggestion>, k: nat, row: Suggestion, t: nat)
    requires k < |rows| && rows[k].ticket == row.ticket != t
    ensures Drafts(rows[k := row], t) == Drafts(rows, t)
  {
    var n := |rows| - 1;
    if k == n {
      assert rows[k := row][..n] == rows[..n];
    } else {
      OtherDraftsStay(rows[..n], k, row, t);
      assert rows[k := row][..n] == rows[..n][k := row];
    }
  }

  lemma {:induction false} SomeDraftIsNewest(rows: seq<Suggestion>, t: nat)
    requires |Drafts(rows, t)| == 1
    ensures Newest(rows, t, false).Some? && rows[Newest(rows, t, false).value] == Drafts(rows, t)[0]
    ensures Drafts(rows, t)[0].approval.Some? ==> Newest(rows, t, true) == Newest(rows, t, false)
  {
    var n := |rows| - 1;
    if rows[n].ticket != t {
      SomeDraftIsNewest(rows[..n], t);
    }
  }

  // --- What each operation changes ---

  // A ticket's row is rewritten, without changing whose it is, and one audit row says so.
  predicate Rewritten(before: Tables, after: Tables, principal: Principal, id: nat, row: Ticket, action: string,
      detail: string)
    requires id < |before.tickets|
  {
    && row.tenant == before.tickets[id].tenant == principal.tenant && row.requester == before.tickets[id].requester
    && after.tickets == before.tickets[id := row]
    && after.audit == before.audit + [Audit(principal.tenant, id, principal.subject, action, detail)]
  }

  // A rewrite that follows the lifecycle keeps every trail in step with its ticket.
  lemma RewriteReplays(before: Tables, after: Tables, principal: Principal, id: nat, row: Ticket, action: string,
      detail: string)
    requires id < |before.tickets| && Rewritten(before, after, principal, id, row, action, detail)
    requires Replays(before) && Next(before.tickets[id].state, action) == Some(row.state)
    ensures Replays(after)
  {
    hide Next, Replay, Actions;
    forall t | 0 <= t < |after.tickets| ensures Replay(Actions(after.audit, t)) == Some(after.tickets[t].state) {
      OneMoreAction(before.audit, after.audit[|before.audit|], t);
      var actions := Actions(before.audit, t);
      assert Replay(actions) == Some(before.tickets[t].state);
      ReplayOneMore(actions, action);
      assert actions + [] == actions;
    }
  }

  lemma MovesReplay(state: State, move: Move)
    requires MayLeave(state, move)
    ensures Next(state, Action(move)) == Some(Target(move))
  {
  }

  // A rewrite that leaves drafts and messages alone, between states that ask for the same of them.
  lemma RewriteKeeps(before: Tables, after: Tables, principal: Principal, id: nat, row: Ticket, action: string,
      detail: string)
    requires id < |before.tickets| && Rewritten(before, after, principal, id, row, action, detail)
    requires after.suggestions == before.suggestions && after.outbox == before.outbox
    requires HasDraft(row.state) == HasDraft(before.tickets[id].state)
    requires IsApproved(row.state) == IsApproved(before.tickets[id].state)
    requires IsSent(row.state) == IsSent(before.tickets[id].state)
    requires Consistent(before)
    ensures Consistent(after)
  {
    hide HasDraft, IsApproved, IsSent, Stored;
    forall t | 0 <= t < |after.tickets| ensures TicketOk(after, t) {
      assert TicketOk(before, t);
    }
  }

  lemma OpeningKeeps(before: Tables, after: Tables, row: Ticket, entry: Audit)
    requires row.state == New && entry.tenant == row.tenant && entry.ticket == |before.tickets| &&
      entry.action == OPENED
    requires after == before.(tickets := before.tickets + [row], audit := before.audit + [entry])
    requires NoOrphans(before)
    ensures Consistent(before) ==> Consistent(after)
    ensures Replays(before) ==> Replays(after)
  {
    hide Drafts, Mails, Actions, Replay, Stored;
    NoRowsYet(before, |before.tickets|);
    assert Replay([OPENED]) == Some(New) by { OpenedIsNew(); }
    forall t | 0 <= t < |after.tickets|
      ensures Consistent(before) ==> TicketOk(after, t)
      ensures Replays(before) ==> Replay(Actions(after.audit, t)) == Some(after.tickets[t].state)
    {
      OneMoreAction(before.audit, entry, t);
      assert t < |before.tickets| && Consistent(before) ==> TicketOk(before, t);
      if t == |before.tickets| {
        assert Actions(after.audit, t) == [OPENED];
      } else {
        assert Actions(after.audit, t) == Actions(before.audit, t);
      }
    }
  }

  lemma OpenedIsNew()
    ensures Replay([OPENED]) == Some(New)
  {
  }

  lemma DraftingKeeps(before: Tables, after: Tables, principal: Principal, id: nat, model: string, draft: Suggestion)
    requires id < |before.tickets| && before.tickets[id].state == Classified
    requires Rewritten(before, after, principal, id, before.tickets[id].(state := AwaitingApproval),
      Action(Draft), model)
    requires draft.ticket == id && draft.approval.None? && Stored(draft.body, MAX_BODY)
    requires after.suggestions == before.suggestions + [draft] && after.outbox == before.outbox
    requires Consistent(before)
    ensures Consistent(after)
  {
    hide Stored, Drafts, Mails;
    forall t | 0 <= t < |after.tickets| ensures TicketOk(after, t) {
      assert TicketOk(before, t);
      OneMoreDraft(before.suggestions, draft, t);
    }
  }

  lemma ApprovingKeeps(before: Tables, after: Tables, principal: Principal, id: nat, k: nat, approval: Approval)
    requires id < |before.tickets| && before.tickets[id].state == AwaitingApproval
    requires Rewritten(before, after, principal, id, before.tickets[id].(state := Approved), Action(Approve),
      approval.body)
    requires Newest(before.suggestions, id, false) == Some(k) && Stored(approval.body, MAX_BODY)
    requires after.suggestions == before.suggestions[k := before.suggestions[k].(approval := Some(approval))]
    requires after.outbox == before.outbox
    requires Consistent(before)
    ensures Consistent(after)
  {
    hide Stored, Drafts, Mails;
    var row := before.suggestions[k].(approval := Some(approval));
    DraftRewritten(before.suggestions, k, row);
    forall t | 0 <= t < |after.tickets| ensures TicketOk(after, t) {
      assert TicketOk(before, t);
      if t != id {
        OtherDraftsStay(before.suggestions, k, row, t);
      }
    }
  }

  lemma SendingKeeps(before: Tables, after: Tables, principal: Principal, id: nat, k: nat, mail: Mail)
    requires id < |before.tickets| && before.tickets[id].state == Approved
    requires Rewritten(before, after, principal, id, before.tickets[id].(state := Replied), Action(Send),
      mail.recipient)
    requires Newest(before.suggestions, id, true) == Some(k)
    requires mail == Mail(principal.tenant, id, before.tickets[id].requester, before.suggestions[k].approval.value.body)
    requires after.suggestions == before.suggestions && after.outbox == before.outbox + [mail]
    requires Consistent(before)
    ensures Consistent(after)
  {
    hide Stored, Drafts, Mails, Newest;
    assert TicketOk(before, id);
    SomeDraftIsNewest(before.suggestions, id);
    forall t | 0 <= t < |after.tickets| ensures TicketOk(after, t) {
      assert TicketOk(before, t);
      OneMoreMail(before.outbox, mail, t);
    }
  }

  // Where a ticket waits for approval it has a draft, and where it is approved it has an approved one.
  lemma DraftIsThere(db: Tables, id: nat)
    requires Consistent(db) && id < |db.tickets|
    ensures HasDraft(db.tickets[id].state) ==>
      Newest(db.suggestions, id, false).Some? &&
        Stored(db.suggestions[Newest(db.suggestions, id, false).value].body, MAX_BODY)
    ensures IsApproved(db.tickets[id].state) ==> Newest(db.suggestions, id, true).Some?
  {
    assert TicketOk(db, id);
    hide Stored;
    if HasDraft(db.tickets[id].state) {
      SomeDraftIsNewest(db.suggestions, id);
    }
  }

  // Why a move is refused, in the order the reasons are found: the role, then whether the ticket is
  // there for this principal at all, then its state.
  function Refusal(principal: Principal, roles: set<string>, tickets: seq<Ticket>, id: nat, move: Move)
      : (reason: Option<Error>)
    ensures reason.None? ==> Sees(principal, tickets, id)
  {
    if roles != {} && !Holds(principal, roles) then Some(Forbidden)
    else if !Sees(principal, tickets, id) then Some(NotFound(id))
    else if !MayLeave(tickets[id].state, move) then Some(TransitionRefused(tickets[id].state, Name(move)))
    else None
  }

  // The fields a client asks to change; `unknown` is a field no client may change.
  datatype Changes = Changes(subject: Option<Input>, body: Option<Input>, unknown: Option<string>)

  function ChangedField(change: Option<Input>, was: string, maximum: nat): Checked {
    if change.None? then Ok(was) else ValidatedText(change.value, maximum)
  }

  function ChangeError(changes: Changes): Option<Error> {
    if changes.unknown.Some? then Some(InvalidField(changes.unknown.value))
    else if !ChangedField(changes.subject, "", MAX_SUBJECT).Ok? then Some(InvalidField("subject"))
    else if !ChangedField(changes.body, "", MAX_BODY).Ok? then Some(InvalidField("body"))
    else if changes.subject.None? && changes.body.None? then Some(InvalidField(""))
    else None
  }

  function ChangeDetail(changes: Changes): string {
    if changes.subject.Some? && changes.body.Some? then "body, subject"
    else if changes.subject.Some? then "subject"
    else "body"
  }

  class TicketService {
    var tickets: seq<Ticket>
    var suggestions: seq<Suggestion>
    var audit: seq<Audit>
    var outbox: seq<Mail>

    function Db(): Tables
      reads this
    {
      Tables(tickets, suggestions, audit, outbox)
    }

    constructor ()
      ensures Db() == Tables([], [], [], [])
      ensures Consistent(Db()) && Replays(Db())
    {
      tickets, suggestions, audit, outbox := [], [], [], [];
    }

    // One audit row, inside the caller's transaction.
    method Record(principal: Principal, id: nat, action: string, detail: string)
      modifies this`audit
      ensures audit == old(audit) + [Audit(principal.tenant, id, principal.subject, action, detail)]
    {
      audit := audit + [Audit(principal.tenant, id, principal.subject, action, detail)];
    }

    // One message, inside the caller's transaction.
    method Deliver(tenant: string, id: nat, recipient: string, body: string) returns (message: nat)
      modifies this`outbox
      ensures message == |old(outbox)| && outbox == old(outbox) + [Mail(tenant, id, recipient, body)]
    {
      message := |outbox|;
      outbox := outbox + [Mail(tenant, id, recipient, body)];
    }

    method OpenTicket(principal: Principal, subject: Input, body: Input) returns (r: Result<nat>)
      modifies this
      ensures r.Failure? ==> Db() == old(Db())
      ensures r == if !ValidatedText(subject, MAX_SUBJECT).Ok? then Failure(InvalidField("subject"))
        else if !ValidatedText(body, MAX_BODY).Ok? then Failure(InvalidField("body"))
        else Success(|old(tickets)|)
      ensures r.Success? ==>
        && tickets == old(tickets) + [Ticket(principal.tenant, principal.subject,
          ValidatedText(subject, MAX_SUBJECT).text, ValidatedText(body, MAX_BODY).text, New, None, None)]
        && audit == old(audit) + [Audit(principal.tenant, r.value, principal.subject, OPENED,
          ValidatedText(subject, MAX_SUBJECT).text)]
        && suggestions == old(suggestions) && outbox == old(outbox)
        && Sees(principal, tickets, r.value)
      ensures old(NoOrphans(Db()) && Replays(Db())) ==> Replays(Db())
      ensures old(Consistent(Db())) ==> Consistent(Db())
    {
      hide ValidatedText, Consistent, Replays, NoOrphans;
      var checkedSubject := ValidatedText(subject, MAX_SUBJECT);
      if !checkedSubject.Ok? {
        return Failure(InvalidField("subject"));
      }
      var checkedBody := ValidatedText(body, MAX_BODY);
      if !checkedBody.Ok? {
        return Failure(InvalidField("body"));
      }
      ghost var before := Db();
      var id := |tickets|;
      tickets := tickets + [Ticket(principal.tenant, principal.subject, checkedSubject.text, checkedBody.text,
        New, None, None)];
      Record(principal, id, OPENED, checkedSubject.text);
      ConsistentHasNoOrphans(before);
      if NoOrphans(before) {
        OpeningKeeps(before, Db(), tickets[id], audit[|audit| - 1]);
      }
      r := Success(id);
    }

    method EditTicket(principal: Principal, id: nat, changes: Changes) returns (r: Result<Ticket>)
      modifies this
      ensures r.Failure? ==> Db() == old(Db())
      ensures ChangeError(changes).Some? ==> r == Failure(ChangeError(changes).value)
      ensures ChangeError(changes).None? && !Sees(principal, old(tickets), id) ==> r == Failure(NotFound(id))
      ensures ChangeError(changes).None? && Sees(principal, old(tickets), id) && old(tickets)[id].state != New ==>
        r == Failure(TransitionRefused(old(tickets)[id].state, "edit"))
      ensures r.Success? <==>
        ChangeError(changes).None? && Sees(principal, old(tickets), id) && old(tickets)[id].state == New
      ensures r.Success? ==>
        && r.value == old(tickets)[id].(
          subject := ChangedField(changes.subject, old(tickets)[id].subject, MAX_SUBJECT).text,
          body := ChangedField(changes.body, old(tickets)[id].body, MAX_BODY).text)
        && Rewritten(old(Db()), Db(), principal, id, r.value, "edited", ChangeDetail(changes))
        && suggestions == old(suggestions) && outbox == old(outbox)
      ensures old(Replays(Db())) ==> Replays(Db())
      ensures old(Consistent(Db())) ==> Consistent(Db())
    {
      hide Consistent, Replays, ValidatedText;
      var error := ChangeError(changes);
      if error.Some? {
        return Failure(error.value);
      }
      if !Sees(principal, tickets, id) {
        return Failure(NotFound(id));
      }
      if tickets[id].state != New {
        return Failure(TransitionRefused(tickets[id].state, "edit"));
      }
      ghost var before := Db();
      var row := tickets[id].(
        subject := ChangedField(changes.subject, tickets[id].subject, MAX_SUBJECT).text,
        body := ChangedField(changes.body, tickets[id].body, MAX_BODY).text);
      tickets := tickets[id := row];
      Record(principal, id, "edited", ChangeDetail(changes));
      if Consistent(before) {
        RewriteKeeps(before, Db(), principal, id, row, "edited", ChangeDetail(changes));
      }
      if Replays(before) {
        RewriteReplays(before, Db(), principal, id, row, "edited", ChangeDetail(changes));
      }
      r := Success(row);
    }

    // Moves the ticket, with one audit row, unless the move is refused.
    method Move(principal: Principal, roles: set<string>, id: nat, move: Move, detail: string)
        returns (r: Result<Ticket>)
      requires move == Close || move == Reject || move == MarkSpam
      modifies this
      ensures r.Failure? ==> Db() == old(Db())
      ensures r.Failure? <==> Refusal(principal, roles, old(tickets), id, move).Some?
      ensures r.Failure? ==> r == Failure(Refusal(principal, roles, old(tickets), id, move).value)
      ensures r.Success? ==>
        && r.value == old(tickets)[id].(state := Target(move))
        && Rewritten(old(Db()), Db(), principal, id, r.value, Action(move), detail)
        && suggestions == old(suggestions) && outbox == old(outbox)
      ensures old(Replays(Db())) ==> Replays(Db())
      ensures old(Consistent(Db())) ==> Consistent(Db())
    {
      hide Consistent, Replays, MoveOf;
      var refusal := Refusal(principal, roles, tickets, id, move);
      if refusal.Some? {
        return Failure(refusal.value);
      }
      ghost var before := Db();
      var row := tickets[id].(state := Target(move));
      MovesReplay(tickets[id].state, move);
      tickets := tickets[id := row];
      Record(principal, id, Action(move), detail);
      if Consistent(before) {
        RewriteKeeps(before, Db(), principal, id, row, Action(move), detail);
      }
      if Replays(before) {
        RewriteReplays(before, Db(), principal, id, row, Action(move), detail);
      }
      r := Success(row);
    }

    // Staff may close a replied ticket, and its requester may.
    method CloseTicket(principal: Principal, id: nat) returns (r: Result<Ticket>)
      modifies this
      ensures r.Failure? ==> Db() == old(Db()) && Refusal(principal, {}, old(tickets), id, Close) == Some(r.error)
      ensures r.Success? <==> Refusal(principal, {}, old(tickets), id, Close).None?
      ensures r.Success? <==> Sees(principal, old(tickets), id) && old(tickets)[id].state == Replied
      ensures r.Success? ==>
        && r.value == old(tickets)[id].(state := Closed)
        && Rewritten(old(Db()), Db(), principal, id, r.value, "closed", "")
        && suggestions == old(suggestions) && outbox == old(outbox)
      ensures old(Replays(Db())) ==> Replays(Db())
      ensures old(Consistent(Db())) ==> Consistent(Db())
    {
      r := Move(principal, {}, id, Close, "");
    }

    // Only a lead may reject, and only before work began.
    method RejectTicket(principal: Principal, id: nat) returns (r: Result<Ticket>)
      modifies this
      ensures r.Failure? ==>
        Db() == old(Db()) && Refusal(principal, {SUPPORT_LEAD}, old(tickets), id, Reject) == Some(r.error)
      ensures r.Success? <==> Refusal(principal, {SUPPORT_LEAD}, old(tickets), id, Reject).None?
      ensures r.Success? <==>
        && SUPPORT_LEAD in principal.roles
        && Sees(principal, old(tickets), id) && old(tickets)[id].state in {New, Classified}
      ensures r.Success? ==>
        && r.value == old(tickets)[id].(state := Rejected)
        && Rewritten(old(Db()), Db(), principal, id, r.value, "rejected", "")
        && suggestions == old(suggestions) && outbox == old(outbox)
      ensures old(Replays(Db())) ==> Replays(Db())
      ensures old(Consistent(Db())) ==> Consistent(Db())
    {
      assert Holds(principal, {SUPPORT_LEAD}) <==> SUPPORT_LEAD in principal.roles by {
        if SUPPORT_LEAD in principal.roles {
          assert SUPPORT_LEAD in principal.roles * {SUPPORT_LEAD};
        }
      }
      r := Move(principal, {SUPPORT_LEAD}, id, Reject, "");
    }

    method MarkAsSpam(principal: Principal, id: nat) returns (r: Result<Ticket>)
      modifies this
      ensures r.Failure? ==> Db() == old(Db()) && Refusal(principal, STAFF, old(tickets), id, MarkSpam) == Some(r.error)
      ensures r.Success? <==> Refusal(principal, STAFF, old(tickets), id, MarkSpam).None?
      ensures r.Success? <==>
        Holds(principal, STAFF) && Sees(principal, old(tickets), id) && old(tickets)[id].state == New
      ensures r.Success? ==>
        && r.value == old(tickets)[id].(state := Spam)
        && Rewritten(old(Db()), Db(), principal, id, r.value, "spam", "")
        && suggestions == old(suggestions) && outbox == old(outbox)
      ensures old(Replays(Db())) ==> Replays(Db())
      ensures old(Consistent(Db())) ==> Consistent(Db())
    {
      r := Move(principal, STAFF, id, MarkSpam, "");
    }

    method ClassifyTicket(principal: Principal, id: nat, category: string, confidence: string)
        returns (r: Result<Ticket>)
      modifies this
      ensures r.Failure? ==> Db() == old(Db())
      ensures !Holds(principal, STAFF) ==> r == Failure(Forbidden)
      ensures Holds(principal, STAFF) && category !in CATEGORIES ==> r == Failure(InvalidField("category"))
      ensures Holds(principal, STAFF) && category in CATEGORIES && confidence !in CONFIDENCES ==>
        r == Failure(InvalidField("confidence"))
      ensures Holds(principal, STAFF) && category in CATEGORIES && confidence in CONFIDENCES ==>
        && (r.Failure? <==> Refusal(principal, STAFF, old(tickets), id, Classify).Some?)
        && (r.Failure? ==> r == Failure(Refusal(principal, STAFF, old(tickets), id, Classify).value))
      ensures r.Success? ==>
        && r.value == old(tickets)[id].(state := Classified, category := Some(category), confidence := Some(confidence))
        && Rewritten(old(Db()), Db(), principal, id, r.value, "classified", category + "/" + confidence)
        && suggestions == old(suggestions) && outbox == old(outbox)
      ensures old(Replays(Db())) ==> Replays(Db())
      ensures old(Consistent(Db())) ==> Consistent(Db())
    {
      hide Consistent, Replays, MoveOf;
      if !Holds(principal, STAFF) {
        return Failure(Forbidden);
      }
      if category !in CATEGORIES {
        return Failure(InvalidField("category"));
      }
      if confidence !in CONFIDENCES {
        return Failure(InvalidField("confidence"));
      }
      var refusal := Refusal(principal, STAFF, tickets, id, Classify);
      if refusal.Some? {
        return Failure(refusal.value);
      }
      ghost var before := Db();
      var row := tickets[id].(state := Classified, category := Some(category), confidence := Some(confidence));
      var detail := category + "/" + confidence;
      MovesReplay(tickets[id].state, Classify);
      tickets := tickets[id := row];
      Record(principal, id, "classified", detail);
      if Consistent(before) {
        RewriteKeeps(before, Db(), principal, id, row, "classified", detail);
      }
      if Replays(before) {
        RewriteReplays(before, Db(), principal, id, row, "classified", detail);
      }
      r := Success(row);
    }

    // Stores a draft, which sends nothing.
    method AttachSuggestion(principal: Principal, id: nat, body: Input, model: string) returns (r: Result<nat>)
      modifies this
      ensures r.Failure? ==> Db() == old(Db())
      ensures !Holds(principal, STAFF) ==> r == Failure(Forbidden)
      ensures Holds(principal, STAFF) && !ValidatedText(body, MAX_BODY).Ok? ==> r == Failure(InvalidField("body"))
      ensures Holds(principal, STAFF) && ValidatedText(body, MAX_BODY).Ok? ==>
        && (r.Failure? <==> Refusal(principal, STAFF, old(tickets), id, Draft).Some?)
        && (r.Failure? ==> r == Failure(Refusal(principal, STAFF, old(tickets), id, Draft).value))
      ensures r.Success? ==>
        && Rewritten(old(Db()), Db(), principal, id, old(tickets)[id].(state := AwaitingApproval), "drafted", model)
        && r.value == |old(suggestions)|
        && suggestions == old(suggestions) + [Suggestion(id, ValidatedText(body, MAX_BODY).text, model, None)]
        && outbox == old(outbox)
      ensures old(Replays(Db())) ==> Replays(Db())
      ensures old(Consistent(Db())) ==> Consistent(Db())
    {
      hide Consistent, Replays, MoveOf, ValidatedText, Stored;
      if !Holds(principal, STAFF) {
        return Failure(Forbidden);
      }
      var checked := ValidatedText(body, MAX_BODY);
      if !checked.Ok? {
        return Failure(InvalidField("body"));
      }
      ValidatedIsStored(body, MAX_BODY);
      var refusal := Refusal(principal, STAFF, tickets, id, Draft);
      if refusal.Some? {
        return Failure(refusal.value);
      }
      ghost var before := Db();
      MovesReplay(tickets[id].state, Draft);
      var suggestion := |suggestions|;
      var draft := Suggestion(id, checked.text, model, None);
      suggestions := suggestions + [draft];
      tickets := tickets[id := tickets[id].(state := AwaitingApproval)];
      Record(principal, id, "drafted", model);
      if Consistent(before) {
        DraftingKeeps(before, Db(), principal, id, model, draft);
      }
      if Replays(before) {
        RewriteReplays(before, Db(), principal, id, tickets[id], "drafted", model);
      }
      r := Success(suggestion);
    }

    // Records a person's approval of the newest draft, as drafted or with a text of their own. In a
    // consistent database the draft is always there, and an unedited draft is always accepted, and
    // approved to the letter.
    method ApproveTicket(principal: Principal, id: nat, body: Option<Input>) returns (r: Result<Ticket>)
      modifies this
      ensures r.Failure? ==> Db() == old(Db())
      ensures Refusal(principal, STAFF, old(tickets), id, Approve).Some? ==>
        r == Failure(Refusal(principal, STAFF, old(tickets), id, Approve).value)
      ensures
        Refusal(principal, STAFF, old(tickets), id, Approve).None? && Newest(old(suggestions), id, false).None? ==>
        r == Failure(SuggestionNotFound(id))
      ensures
        Refusal(principal, STAFF, old(tickets), id, Approve).None? && Newest(old(suggestions), id, false).Some? ==>
        var k := Newest(old(suggestions), id, false).value;
        var text := if body.None? then Text(old(suggestions)[k].body) else body.value;
        if !ValidatedText(text, MAX_BODY).Ok? then r == Failure(InvalidField("body"))
        else
          && r == Success(old(tickets)[id].(state := Approved))
          && Rewritten(old(Db()), Db(), principal, id, r.value, "approved", ValidatedText(text, MAX_BODY).text)
          && suggestions ==
            old(suggestions)[k := old(suggestions)[k].(approval := Some(Approval(principal.subject,
              ValidatedText(text, MAX_BODY).text)))]
          && outbox == old(outbox)
      ensures old(Consistent(Db())) && Refusal(principal, STAFF, old(tickets), id, Approve).None? ==>
        && r != Failure(SuggestionNotFound(id))
        && (body.None? ==>
              && r.Success?
              && var k := Newest(old(suggestions), id, false).value;
                 suggestions[k].approval == Some(Approval(principal.subject, old(suggestions)[k].body)))
      ensures old(Replays(Db())) ==> Replays(Db())
      ensures old(Consistent(Db())) ==> Consistent(Db())
    {
      hide Consistent, Replays, MoveOf, ValidatedText, Stored;
      var refusal := Refusal(principal, STAFF, tickets, id, Approve);
      if refusal.Some? {
        return Failure(refusal.value);
      }
      ghost var before := Db();
      if Consistent(before) {
        DraftIsThere(before, id);
      }
      var newest := Newest(suggestions, id, false);
      if newest.None? {
        return Failure(SuggestionNotFound(id));
      }
      var k := newest.value;
      StoredIsFixed(suggestions[k].body, MAX_BODY);
      var text := if body.None? then Text(suggestions[k].body) else body.value;
      var checked := ValidatedText(text, MAX_BODY);
      if !checked.Ok? {
        return Failure(InvalidField("body"));
      }
      ValidatedIsStored(text, MAX_BODY);
      var approval := Approval(principal.subject, checked.text);
      MovesReplay(tickets[id].state, Approve);
      suggestions := suggestions[k := suggestions[k].(approval := Some(approval))];
      tickets := tickets[id := tickets[id].(state := Approved)];
      Record(principal, id, "approved", checked.text);
      if Consistent(before) {
        ApprovingKeeps(before, Db(), principal, id, k, approval);
      }
      if Replays(before) {
        RewriteReplays(before, Db(), principal, id, tickets[id], "approved", checked.text);
      }
      r := Success(tickets[id]);
    }

    // Sends the text a person approved. In a consistent database an approved text is always there.
    method SendReply(principal: Principal, id: nat) returns (r: Result<Ticket>)
      modifies this
      ensures r.Failure? ==> Db() == old(Db())
      ensures Refusal(principal, STAFF, old(tickets), id, Send).Some? ==>
        r == Failure(Refusal(principal, STAFF, old(tickets), id, Send).value)
      ensures Refusal(principal, STAFF, old(tickets), id, Send).None? ==>
        match Newest(old(suggestions), id, true)
        case None => r == Failure(ApprovalRequired(id)) && !old(Consistent(Db()))
        case Some(k) =>
          && r == Success(old(tickets)[id].(state := Replied))
          && Rewritten(old(Db()), Db(), principal, id, r.value, "replied", r.value.requester)
          && suggestions == old(suggestions)
          && outbox == old(outbox) + [Mail(r.value.tenant, id, r.value.requester,
            old(suggestions)[k].approval.value.body)]
      ensures old(Replays(Db())) ==> Replays(Db())
      ensures old(Consistent(Db())) ==> Consistent(Db())
    {
      hide Consistent, Replays, MoveOf, Stored;
      var refusal := Refusal(principal, STAFF, tickets, id, Send);
      if refusal.Some? {
        return Failure(refusal.value);
      }
      ghost var before := Db();
      if Consistent(before) {
        DraftIsThere(before, id);
      }
      var newest := Newest(suggestions, id, true);
      if newest.None? {
        return Failure(ApprovalRequired(id));
      }
      var recipient := tickets[id].requester;
      MovesReplay(tickets[id].state, Send);
      var message := Deliver(principal.tenant, id, recipient, suggestions[newest.value].approval.value.body);
      tickets := tickets[id := tickets[id].(state := Replied)];
      Record(principal, id, "replied", recipient);
      if Consistent(before) {
        SendingKeeps(before, Db(), principal, id, newest.value, outbox[message]);
      }
      if Replays(before) {
        RewriteReplays(before, Db(), principal, id, tickets[id], "replied", recipient);
      }
      r := Success(tickets[id]);
    }

    // Records something that is no move. A name the lifecycle uses would make the trail lie: the
    // trail stays true to the ticket exactly when the name is none of those.
    method RecordEvent(principal: Principal, id: nat, action: string, detail: string) returns (r: Result<()>)
      modifies this`audit
      ensures r.Failure? ==> audit == old(audit)
      ensures !Holds(principal, STAFF) ==> r == Failure(Forbidden)
      ensures Holds(principal, STAFF) && !Sees(principal, tickets, id) ==> r == Failure(NotFound(id))
      ensures r.Success? <==> Holds(principal, STAFF) && Sees(principal, tickets, id)
      ensures r.Success? ==> audit == old(audit) + [Audit(principal.tenant, id, principal.subject, action, detail)]
      ensures old(Replays(Db())) ==> (Replays(Db()) <==> r.Failure? || NamesNoMove(action))
      ensures old(Consistent(Db())) ==> Consistent(Db())
    {
      hide Consistent, Replays, MoveOf;
      if !Holds(principal, STAFF) {
        return Failure(Forbidden);
      }
      if !Sees(principal, tickets, id) {
        return Failure(NotFound(id));
      }
      ghost var before := Db();
      Record(principal, id, action, detail);
      assert tickets[id := tickets[id]] == tickets;
      if Consistent(before) {
        RewriteKeeps(before, Db(), principal, id, tickets[id], action, detail);
      }
      if Replays(before) {
        EventReplays(before, Db(), principal, id, action, detail);
      }
      r := Success(());
    }

    // A ticket's trail, oldest first, for whoever may see the ticket.
    method AuditTrail(principal: Principal, id: nat) returns (r: Result<seq<Audit>>)
      ensures r.Success? <==>
        && id < |tickets| && tickets[id].tenant == principal.tenant
        && ("support_agent" in principal.roles || "support_lead" in principal.roles ||
            tickets[id].requester == principal.subject)
      ensures r.Failure? ==> r == Failure(NotFound(id))
      ensures r.Success? ==> r.value == Trail(audit, id)
      ensures r.Success? ==> (forall row :: row in r.value <==> row in audit && row.ticket == id)
      ensures r.Success? ==> ActionsOf(r.value) == Actions(audit, id)
      ensures r.Success? && Replays(Db()) ==> Replay(ActionsOf(r.value)) == Some(tickets[id].state)
    {
      hide Replay;
      StaffRoles(principal);
      if !Sees(principal, tickets, id) {
        return Failure(NotFound(id));
      }
      hide Holds;
      var rows: seq<Audit> := [];
      for k := 0 to |audit|
        invariant forall row :: row in rows <==> row in audit[..k] && row.ticket == id
        invariant rows == Trail(audit[..k], id)
        invariant ActionsOf(rows) == Actions(audit[..k], id)
      {
        assert audit[..k + 1] == audit[..k] + [audit[k]] && audit[..k + 1][..k] == audit[..k];
        OneMoreAction(audit[..k], audit[k], id);
        if audit[k].ticket == id {
          assert ActionsOf(rows + [audit[k]]) == ActionsOf(rows) + [audit[k].action];
          rows := rows + [audit[k]];
        }
      }
      assert audit[..|audit|] == audit;
      r := Success(rows);
    }

    // One call of any operation, whoever makes it and with whatever arguments.
    method Perform(call: Call) returns (answer: Result<Answer>)
      modifies this
      ensures Did(old(Db()), call, Db(), answer)
      ensures old(Consistent(Db())) ==> Consistent(Db())
      ensures old(Consistent(Db()) && Replays(Db())) && Truthful(call) ==> Replays(Db())
    {
      hide Consistent, Replays, NoOrphans, ValidatedText, ChangedField, ChangeDetail, Newest, Visible,
        NamesNoMove, Rewritten, Refusal, MayLeave, Holds;
      var principal, id := call.principal, call.id;
      match call.operation
      case Open(subject, body) =>
        ConsistentHasNoOrphans(Db());
        var r := OpenTicket(principal, subject, body);
        answer := if r.Success? then Success(Numbered(r.value)) else Failure(r.error);
      case Edit(changes) =>
        var r := EditTicket(principal, id, changes);
        answer := Rowed(r);
      case ClassifyAs(category, confidence) =>
        var r := ClassifyTicket(principal, id, category, confidence);
        answer := Rowed(r);
      case Suggest(body, model) =>
        var r := AttachSuggestion(principal, id, body, model);
        answer := if r.Success? then Success(Numbered(r.value)) else Failure(r.error);
      case ApproveDraft(edited) =>
        var r := ApproveTicket(principal, id, edited);
        answer := Rowed(r);
      case SendApproved =>
        var r := SendReply(principal, id);
        answer := Rowed(r);
      case CloseIt =>
        var r := CloseTicket(principal, id);
        answer := Rowed(r);
      case RejectIt =>
        var r := RejectTicket(principal, id);
        answer := Rowed(r);
      case MarkIt =>
        var r := MarkAsSpam(principal, id);
        answer := Rowed(r);
      case RecordIt(action, detail) =>
        var r := RecordEvent(principal, id, action, detail);
        answer := if r.Success? then Success(Done) else Failure(r.error);
    }
  }

  // --- Runs ---

  datatype Operation =
    | Open(subject: Input, body: Input)
    | Edit(changes: Changes)
    | ClassifyAs(category: string, confidence: string)
    | Suggest(body: Input, model: string)
    | ApproveDraft(edited: Option<Input>)
    | SendApproved
    | CloseIt
    | RejectIt
    | MarkIt
    | RecordIt(action: string, detail: string)

  datatype Call = Call(principal: Principal, id: nat, operation: Operation)

  // What an operation answers: the number of a new row, a ticket's row, or nothing.
  datatype Answer = Numbered(id: nat) | Row(ticket: Ticket) | Done

  function Rowed(r: Result<Ticket>): Result<Answer> {
    if r.Success? then Success(Row(r.value)) else Failure(r.error)
  }

  // Why an operation refuses a call, in the order in which it finds out.
  function Reason(db: Tables, call: Call): Option<Error> {
    var principal, id := call.principal, call.id;
    match call.operation
    case Open(subject, body) =>
      if !ValidatedText(subject, MAX_SUBJECT).Ok? then Some(InvalidField("subject"))
      else if !ValidatedText(body, MAX_BODY).Ok? then Some(InvalidField("body"))
      else None
    case Edit(changes) =>
      if ChangeError(changes).Some? then ChangeError(changes)
      else if !Sees(principal, db.tickets, id) then Some(NotFound(id))
      else if db.tickets[id].state != New then Some(TransitionRefused(db.tickets[id].state, "edit"))
      else None
    case ClassifyAs(category, confidence) =>
      if !Holds(principal, STAFF) then Some(Forbidden)
      else if category !in CATEGORIES then Some(InvalidField("category"))
      else if confidence !in CONFIDENCES then Some(InvalidField("confidence"))
      else Refusal(principal, STAFF, db.tickets, id, Classify)
    case Suggest(body, _) =>
      if !Holds(principal, STAFF) then Some(Forbidden)
      else if !ValidatedText(body, MAX_BODY).Ok? then Some(InvalidField("body"))
      else Refusal(principal, STAFF, db.tickets, id, Draft)
    case ApproveDraft(edited) =>
      var refusal := Refusal(principal, STAFF, db.tickets, id, Approve);
      if refusal.Some? then refusal
      else if Newest(db.suggestions, id, false).None? then Some(SuggestionNotFound(id))
      else if !ApprovedText(db, id, edited).Ok? then Some(InvalidField("body"))
      else None
    case SendApproved =>
      var refusal := Refusal(principal, STAFF, db.tickets, id, Send);
      if refusal.Some? then refusal
      else if Newest(db.suggestions, id, true).None? then Some(ApprovalRequired(id))
      else None
    case CloseIt => Refusal(principal, {}, db.tickets, id, Close)
    case RejectIt => Refusal(principal, {SUPPORT_LEAD}, db.tickets, id, Reject)
    case MarkIt => Refusal(principal, STAFF, db.tickets, id, MarkSpam)
    case RecordIt(_, _) =>
      if !Holds(principal, STAFF) then Some(Forbidden)
      else if !Sees(principal, db.tickets, id) then Some(NotFound(id))
      else None
  }

  // The text an approval records: a person's own, or the newest draft's.
  function ApprovedText(db: Tables, id: nat, edited: Option<Input>): Checked
    requires Newest(db.suggestions, id, false).Some?
  {
    var drafted := db.suggestions[Newest(db.suggestions, id, false).value].body;
    ValidatedText(if edited.None? then Text(drafted) else edited.value, MAX_BODY)
  }

  // What one call does to the tables, and what it answers: nothing if it is refused, and otherwise
  // what its operation is for, with one audit row, and no other row touched.
  predicate Did(before: Tables, call: Call, after: Tables, answer: Result<Answer>) {
    var principal, id := call.principal, call.id;
    var reason := Reason(before, call);
    if reason.Some? then answer == Failure(reason.value) && after == before
    else match call.operation
    case Open(subject, body) =>
      var line := ValidatedText(subject, MAX_SUBJECT).text;
      var row := Ticket(principal.tenant, principal.subject, line, ValidatedText(body, MAX_BODY).text, New, None, None);
      var entry := Audit(principal.tenant, |before.tickets|, principal.subject, OPENED, line);
      && answer == Success(Numbered(|before.tickets|))
      && after == before.(tickets := before.tickets + [row], audit := before.audit + [entry])
    case RecordIt(action, detail) =>
      && answer == Success(Done)
      && after == before.(audit := before.audit + [Audit(principal.tenant, id, principal.subject, action, detail)])
    case Suggest(body, model) =>
      && id < |before.tickets|
      && Rewritten(before, after, principal, id, before.tickets[id].(state := AwaitingApproval), "drafted", model)
      && answer == Success(Numbered(|before.suggestions|))
      && after.suggestions == before.suggestions + [Suggestion(id, ValidatedText(body, MAX_BODY).text, model, None)]
      && after.outbox == before.outbox
    case _ =>
      && id < |before.tickets| && answer.Success? && answer.value.Row?
      && DidMove(before, call, after, answer.value.ticket)
  }

  // The operations that rewrite a ticket's row and answer it.
  predicate DidMove(before: Tables, call: Call, after: Tables, row: Ticket)
    requires call.id < |before.tickets| && Reason(before, call).None?
  {
    var principal, id := call.principal, call.id;
    var was := before.tickets[id];
    match call.operation
    case Edit(changes) =>
      && row == was.(subject := ChangedField(changes.subject, was.subject, MAX_SUBJECT).text,
        body := ChangedField(changes.body, was.body, MAX_BODY).text)
      && RowOnly(before, after, principal, id, row, "edited", ChangeDetail(changes))
    case ClassifyAs(category, confidence) =>
      && row == was.(state := Classified, category := Some(category), confidence := Some(confidence))
      && RowOnly(before, after, principal, id, row, "classified", category + "/" + confidence)
    case ApproveDraft(edited) =>
      var k := Newest(before.suggestions, id, false).value;
      var text := ApprovedText(before, id, edited).text;
      && row == was.(state := Approved)
      && Rewritten(before, after, principal, id, row, "approved", text)
      && after.suggestions ==
        before.suggestions[k := before.suggestions[k].(approval := Some(Approval(principal.subject, text)))]
      && after.outbox == before.outbox
    case SendApproved =>
      var k := Newest(before.suggestions, id, true).value;
      && row == was.(state := Replied)
      && Rewritten(before, after, principal, id, row, "replied", was.requester)
      && after.suggestions == before.suggestions
      && after.outbox == before.outbox +
        [Mail(was.tenant, id, was.requester, before.suggestions[k].approval.value.body)]
    case CloseIt => row == was.(state := Closed) && RowOnly(before, after, principal, id, row, "closed", "")
    case RejectIt => row == was.(state := Rejected) && RowOnly(before, after, principal, id, row, "rejected", "")
    case MarkIt => row == was.(state := Spam) && RowOnly(before, after, principal, id, row, "spam", "")
    case _ => false
  }

  predicate RowOnly(before: Tables, after: Tables, principal: Principal, id: nat, row: Ticket, action: string,
      detail: string)
    requires id < |before.tickets|
  {
    && Rewritten(before, after, principal, id, row, action, detail)
    && after.suggestions == before.suggestions && after.outbox == before.outbox
  }

  // A call that records no event under a name of the lifecycle's.
  predicate Truthful(call: Call) {
    call.operation.RecordIt? ==> NamesNoMove(call.operation.action)
  }

  // Every message answers a ticket of its own, with a text approved for that ticket.
  ghost predicate AnsweredOnce(db: Tables) {
    && (forall i, j :: 0 <= i < j < |db.outbox| ==> db.outbox[i].ticket != db.outbox[j].ticket)
    && (forall k :: 0 <= k < |db.outbox| ==> WasApproved(db.suggestions, db.outbox[k]))
  }

  ghost predicate WasApproved(suggestions: seq<Suggestion>, mail: Mail) {
    exists draft :: draft in suggestions && ApprovedAs(draft, mail)
  }

  predicate ApprovedAs(draft: Suggestion, mail: Mail) {
    draft.ticket == mail.ticket && draft.approval.Some? && draft.approval.value.body == mail.body
  }

  // The tables between one call and the next, from any tables on.
  ghost predicate Follows(states: seq<Tables>, calls: seq<Call>, answers: seq<Result<Answer>>) {
    && |states| == |calls| + 1 && |answers| == |calls|
    && forall k :: 0 <= k < |calls| ==> Did(states[k], calls[k], states[k + 1], answers[k])
  }

  ghost predicate Happened(states: seq<Tables>, calls: seq<Call>, answers: seq<Result<Answer>>) {
    Follows(states, calls, answers) && states[0] == Tables([], [], [], [])
  }

  // Any calls at all, from the empty tables: each does what it is for; the tables agree with each other
  // at the end, no ticket is answered twice or without approval, and unless an event was recorded under
  // a move's name, every trail replays to its ticket's state, in at most five moves.
  method Run(calls: seq<Call>) returns (db: Tables, answers: seq<Result<Answer>>, ghost states: seq<Tables>)
    ensures Happened(states, calls, answers) && states[|calls|] == db
    ensures Consistent(db) && AnsweredOnce(db)
    ensures (forall k :: 0 <= k < |calls| ==> Truthful(calls[k])) ==> Replays(db)
    ensures Replays(db) ==> forall t :: 0 <= t < |db.tickets| ==> MoveCount(Actions(db.audit, t)) <= 5
  {
    hide Consistent, Replays, Did;
    var service := new TicketService();
    answers, states := [], [service.Db()];
    for k := 0 to |calls|
      invariant fresh(service) && Consistent(service.Db())
      invariant (forall j :: 0 <= j < k ==> Truthful(calls[j])) ==> Replays(service.Db())
      invariant Happened(states, calls[..k], answers) && states[k] == service.Db()
    {
      var answer := service.Perform(calls[k]);
      assert calls[..k + 1] == calls[..k] + [calls[k]];
      answers, states := answers + [answer], states + [service.Db()];
    }
    assert calls[..|calls|] == calls;
    db := service.Db();
    ConsistentAnswersOnce(db);
    if Replays(db) {
      forall t | 0 <= t < |db.tickets| ensures MoveCount(Actions(db.audit, t)) <= 5 {
        NoTicketMovesMoreThanFiveTimes(db, t);
      }
    }
  }

  // What was sent: the words of a text, within a length, and none of its white space.
  ghost predicate Says(stored: string, sent: Input, maximum: nat) {
    sent.Text? && Words(stored) == Words(sent.text) && IsNormal(stored) && 0 < |stored| <= maximum
  }

  lemma ValidatedSays(sent: Input, maximum: nat)
    ensures var checked := ValidatedText(sent, maximum); checked.Ok? ==> Says(checked.text, sent, maximum)
  {
    ValidatedIsStored(sent, maximum);
  }

  // The texts a call leaves are the ones it was sent, word for word, in the fields it names; a field it
  // does not name keeps its text, and one nobody may change is refused.
  lemma TextsAreAsSent(before: Tables, call: Call, after: Tables, answer: Result<Answer>)
    requires Did(before, call, after, answer)
    ensures call.operation.Open? && answer.Success? ==>
      var row := after.tickets[|before.tickets|];
      && Says(row.subject, call.operation.subject, 200) && Says(row.body, call.operation.body, 4000)
      && row.requester == call.principal.subject && row.tenant == call.principal.tenant && row.state == New
    ensures call.operation.Edit? && answer.Success? ==>
      var changes, was, row := call.operation.changes, before.tickets[call.id], after.tickets[call.id];
      && changes.unknown.None? && (changes.subject.Some? || changes.body.Some?) && row.state == was.state == New
      && (if changes.subject.Some? then Says(row.subject, changes.subject.value, 200) else row.subject == was.subject)
      && (if changes.body.Some? then Says(row.body, changes.body.value, 4000) else row.body == was.body)
      && after.audit[|before.audit|].action == "edited"
      && after.audit[|before.audit|].detail ==
        (if changes.subject.None? then "body" else if changes.body.None? then "subject" else "body, subject")
    ensures call.operation.Suggest? && answer.Success? ==>
      var draft := after.suggestions[|before.suggestions|];
      draft.ticket == call.id && Says(draft.body, call.operation.body, 4000) && draft.approval.None?
    ensures call.operation.Edit? && call.operation.changes.unknown.Some? ==>
      answer == Failure(InvalidField(call.operation.changes.unknown.value)) && after == before
  {
    hide Says, ValidatedText, Refusal, Sees, Newest, ApprovedText, Holds;
    match call.operation
    case Open(subject, body) =>
      ValidatedSays(subject, MAX_SUBJECT);
      ValidatedSays(body, MAX_BODY);
    case Edit(changes) =>
      if changes.subject.Some? {
        ValidatedSays(changes.subject.value, MAX_SUBJECT);
      }
      if changes.body.Some? {
        ValidatedSays(changes.body.value, MAX_BODY);
      }
    case Suggest(body, _) => ValidatedSays(body, MAX_BODY);
    case _ =>
  }

  // An approval is of the newest draft, by whoever calls, with the text they sent or the draft's own.
  lemma ApprovalsAreAsSent(before: Tables, call: Call, after: Tables, answer: Result<Answer>, k: nat)
    requires Did(before, call, after, answer) && call.operation.ApproveDraft? && answer.Success?
    requires k < |before.suggestions| && before.suggestions[k].ticket == call.id
    requires forall j :: k < j < |before.suggestions| ==> before.suggestions[j].ticket != call.id
    ensures var draft, edited := after.suggestions[k], call.operation.edited;
      && draft.approval.Some? && draft.approval.value.approver == call.principal.subject
      && Says(draft.approval.value.body, if edited.Some? then edited.value else Text(before.suggestions[k].body), 4000)
  {
    hide Says, ValidatedText, Refusal, Sees, Holds;
    var drafted := Text(before.suggestions[k].body);
    ValidatedSays(if call.operation.edited.Some? then call.operation.edited.value else drafted, MAX_BODY);
  }

  // Which edits go through, and what the others are refused for first: a field nobody may change, a subject
  // or a body that is no text of the right length, nothing to change, a ticket hidden, or past editing.
  lemma EditsGoThrough(before: Tables, call: Call, after: Tables, answer: Result<Answer>)
    requires Did(before, call, after, answer) && call.operation.Edit?
    ensures var changes := call.operation.changes;
      var subjectBad := changes.subject.Some? && !ValidatedText(changes.subject.value, 200).Ok?;
      var bodyBad := changes.body.Some? && !ValidatedText(changes.body.value, 4000).Ok?;
      if changes.unknown.Some? then answer == Failure(InvalidField(changes.unknown.value))
      else if subjectBad then answer == Failure(InvalidField("subject"))
      else if bodyBad then answer == Failure(InvalidField("body"))
      else if changes.subject.None? && changes.body.None? then answer == Failure(InvalidField(""))
      else if !Sees(call.principal, before.tickets, call.id) then answer == Failure(NotFound(call.id))
      else answer.Success? <==> before.tickets[call.id].state == New
  {
    hide ValidatedText, Sees;
  }

  // A move refused for the ticket's state names that state and the operation.
  lemma RefusedMovesAreNamed(before: Tables, call: Call, state: State, action: string)
    requires Reason(before, call) == Some(TransitionRefused(state, action))
    ensures call.id < |before.tickets| && before.tickets[call.id].state == state
    ensures
      match call.operation
      case Edit(_) => action == "edit" && state != New
      case ClassifyAs(_, _) => action == "classify" && state != New
      case Suggest(_, _) => action == "draft" && state != Classified
      case ApproveDraft(_) => action == "approve" && state != AwaitingApproval
      case SendApproved => action == "send" && state != Approved
      case CloseIt => action == "close" && state != Replied
      case RejectIt => action == "reject" && state != New && state != Classified
      case MarkIt => action == "mark_spam" && state != New
      case _ => false
  {
    hide ValidatedText, Newest, ApprovedText, Holds, ChangedField, ChangeError;
    ChangeErrorsAreFields(call);
  }

  // A ticket reported as not found is the one asked for, and hidden from the caller or not there.
  lemma NotFoundMeansHidden(before: Tables, call: Call, id: nat)
    requires Reason(before, call) in {Some(NotFound(id)), Some(SuggestionNotFound(id)), Some(ApprovalRequired(id))}
    ensures id == call.id && !call.operation.Open?
    ensures Reason(before, call) == Some(NotFound(id)) <==> !Sees(call.principal, before.tickets, id)
  {
    hide ValidatedText, Newest, ApprovedText, Holds, ChangedField, ChangeError, Sees;
    ChangeErrorsAreFields(call);
  }

  lemma ChangeErrorsAreFields(call: Call)
    ensures call.operation.Edit? && ChangeError(call.operation.changes).Some? ==>
      ChangeError(call.operation.changes).value.InvalidField?
  {
  }

  // What was recorded stays: later tables only add audit rows, messages, drafts and tickets, and what
  // they rewrite keeps its owner.
  ghost predicate OnlyAdds(before: Tables, after: Tables) {
    && before.audit <= after.audit && before.outbox <= after.outbox
    && |before.suggestions| <= |after.suggestions| && |before.tickets| <= |after.tickets|
    && (forall t :: 0 <= t < |before.tickets| ==>
          && after.tickets[t].tenant == before.tickets[t].tenant
          && after.tickets[t].requester == before.tickets[t].requester)
    && (forall k :: 0 <= k < |before.suggestions| ==>
          after.suggestions[k] == before.suggestions[k].(approval := after.suggestions[k].approval))
  }

  lemma {:induction false} NothingIsErased(states: seq<Tables>, calls: seq<Call>, answers: seq<Result<Answer>>,
      i: nat, j: nat)
    requires Happened(states, calls, answers) && i <= j <= |calls|
    ensures OnlyAdds(states[i], states[j])
  {
    hide Did;
    if i < j {
      NothingIsErased(states, calls, answers, i, j - 1);
      OneCallOnlyAdds(states[j - 1], calls[j - 1], states[j], answers[j - 1]);
    }
  }

  // One call leaves nothing open: what it does and answers follows from the tables it finds.
  lemma OneOutcome(before: Tables, call: Call, after: Tables, answer: Result<Answer>, other: Tables,
      otherwise: Result<Answer>)
    requires Did(before, call, after, answer) && Did(before, call, other, otherwise)
    ensures after == other && answer == otherwise
  {
    hide ValidatedText, ChangedField, ChangeDetail, Visible, Holds, Newest;
  }

  // So the calls alone decide every table and every answer of a run.
  lemma {:induction false} CallsDecideTheRun(calls: seq<Call>, states: seq<Tables>, answers: seq<Result<Answer>>,
      others: seq<Tables>, otherwise: seq<Result<Answer>>)
    requires Happened(states, calls, answers) && Happened(others, calls, otherwise)
    ensures states == others && answers == otherwise
  {
    hide Did;
    if calls != [] {
      var n := |calls| - 1;
      CallsDecideTheRun(calls[..n], states[..n + 1], answers[..n], others[..n + 1], otherwise[..n]);
      assert states[n] == states[..n + 1][n] == others[n];
      OneOutcome(states[n], calls[n], states[n + 1], answers[n], others[n + 1], otherwise[n]);
      assert states == states[..n + 1] + [states[n + 1]] && answers == answers[..n] + [answers[n]];
      assert others == others[..n + 1] + [others[n + 1]] && otherwise == otherwise[..n] + [otherwise[n]];
    }
  }

  lemma OneCallOnlyAdds(before: Tables, call: Call, after: Tables, answer: Result<Answer>)
    requires Did(before, call, after, answer)
    ensures OnlyAdds(before, after)
  {
    hide ValidatedText, Reason, DidMove;
    if answer.Success? && answer.value.Row? {
      MoveOnlyAdds(before, call, after, answer.value.ticket);
    }
  }

  lemma MoveOnlyAdds(before: Tables, call: Call, after: Tables, row: Ticket)
    requires call.id < |before.tickets| && Reason(before, call).None? && DidMove(before, call, after, row)
    ensures OnlyAdds(before, after)
  {
    hide ValidatedText, ChangedField, ChangeDetail, ChangeError, Sees, Holds, Refusal, ApprovedText;
  }

  lemma ConsistentAnswersOnce(db: Tables)
    requires Consistent(db)
    ensures AnsweredOnce(db)
  {
    forall i, j | 0 <= i < j < |db.outbox| ensures db.outbox[i].ticket != db.outbox[j].ticket {
      OneMessageEach(db, i, j);
    }
    forall k | 0 <= k < |db.outbox| ensures WasApproved(db.suggestions, db.outbox[k]) {
      var draft := EveryMessageWasApproved(db, k);
      assert ApprovedAs(draft, db.outbox[k]);
    }
  }

  function ActionsOf(rows: seq<Audit>): seq<string> {
    seq(|rows|, k requires 0 <= k < |rows| => rows[k].action)
  }

  lemma EventReplays(before: Tables, after: Tables, principal: Principal, id: nat, action: string, detail: string)
    requires id < |before.tickets| && Rewritten(before, after, principal, id, before.tickets[id], action, detail)
    requires Replays(before)
    ensures Replays(after) <==> NamesNoMove(action)
  {
    if NamesNoMove(action) {
      RewriteReplays(before, after, principal, id, before.tickets[id], action, detail);
    } else {
      OneMoreAction(before.audit, after.audit[|before.audit|], id);
      ReplayOneMore(Actions(before.audit, id), action);
      MovesAreMoves(before.tickets[id].state, action);
      hide Actions, Replay, Next;
      assert after.tickets[id] == before.tickets[id];
      assert Replay(Actions(before.audit, id)) == Some(before.tickets[id].state);
    }
  }

  lemma MovesAreMoves(state: State, action: string)
    requires !NamesNoMove(action)
    ensures Next(state, action) != Some(state)
  {
  }

  lemma ConsistentHasNoOrphans(db: Tables)
    ensures Consistent(db) ==> NoOrphans(db)
  {
  }

  // --- What a consistent database says about the whole outbox ---

  lemma {:induction false} MailIsListed(rows: seq<Mail>, k: nat)
    requires k < |rows|
    ensures rows[k] in Mails(rows, rows[k].ticket)
  {
    var n := |rows| - 1;
    if k < n {
      MailIsListed(rows[..n], k);
    }
  }

  lemma {:induction false} TwoMailsAreListed(rows: seq<Mail>, i: nat, j: nat)
    requires i < j < |rows|
    ensures rows[i].ticket == rows[j].ticket ==> |Mails(rows, rows[i].ticket)| >= 2
  {
    var n := |rows| - 1;
    if j < n {
      TwoMailsAreListed(rows[..n], i, j);
    } else {
      MailIsListed(rows[..n], i);
    }
  }

  lemma {:induction false} DraftIsARow(rows: seq<Suggestion>, t: nat, draft: Suggestion)
    requires draft in Drafts(rows, t)
    ensures draft in rows && draft.ticket == t
  {
    var n := |rows| - 1;
    if draft in Drafts(rows[..n], t) {
      DraftIsARow(rows[..n], t, draft);
    }
  }

  // No message without an approval: whatever was sent is a text somebody approved for that ticket.
  lemma EveryMessageWasApproved(db: Tables, k: nat) returns (draft: Suggestion)
    requires Consistent(db) && k < |db.outbox|
    ensures draft in db.suggestions && draft.ticket == db.outbox[k].ticket
    ensures draft.approval.Some? && draft.approval.value.body == db.outbox[k].body
    ensures var ticket := db.tickets[db.outbox[k].ticket];
      IsSent(ticket.state) && db.outbox[k].recipient == ticket.requester && db.outbox[k].tenant == ticket.tenant
  {
    var t := db.outbox[k].ticket;
    assert TicketOk(db, t);
    MailIsListed(db.outbox, k);
    draft := Drafts(db.suggestions, t)[0];
    DraftIsARow(db.suggestions, t, draft);
  }

  // No ticket is ever answered twice.
  lemma OneMessageEach(db: Tables, i: nat, j: nat)
    requires Consistent(db) && i < j < |db.outbox|
    ensures db.outbox[i].ticket != db.outbox[j].ticket
  {
    assert TicketOk(db, db.outbox[i].ticket);
    TwoMailsAreListed(db.outbox, i, j);
  }

  // A ticket's state bounds how often it moved, from both sides.
  lemma NoTicketMovesMoreThanFiveTimes(db: Tables, t: nat)
    requires Replays(db) && t < |db.tickets|
    ensures LeastMoves(db.tickets[t].state) <= MoveCount(Actions(db.audit, t)) <= MostMoves(db.tickets[t].state) <= 5
  {
    TrailsAreShort(Actions(db.audit, t));
  }
}
