// Whose tickets a call can touch or learn of, with the roles written out: nobody's but the caller's, unless
// the caller is staff, and nothing outside the caller's tenant.
module Visibility {
  import opened Text
  import opened SupportDesk

  predicate IsStaff(principal: Principal) {
    "support_agent" in principal.roles || "support_lead" in principal.roles
  }

  // Another tenant's ticket, or for someone without a staff role another requester's.
  predicate Foreign(principal: Principal, ticket: Ticket) {
    ticket.tenant != principal.tenant || (!IsStaff(principal) && ticket.requester != principal.subject)
  }

  predicate IsHidden(principal: Principal, tickets: seq<Ticket>, t: nat) {
    t < |tickets| && Foreign(principal, tickets[t])
  }

  lemma SeesWhatIsNotForeign(principal: Principal, tickets: seq<Ticket>, id: nat)
    ensures Sees(principal, tickets, id) <==> id < |tickets| && !Foreign(principal, tickets[id])
  {
    StaffRoles(principal);
    hide Holds;
  }

  // --- What a call changes ---

  // A call that is not refused, unless it opens a ticket, is about one its caller may see.
  lemma OnlySeenTickets(before: Tables, call: Call)
    requires Reason(before, call).None? && !call.operation.Open?
    ensures Sees(call.principal, before.tickets, call.id)
  {
    hide Sees, ValidatedText, ChangeError, Newest, ApprovedText, Holds;
  }

  // Which operations ask for a role.
  lemma OnlyStaff(before: Tables, call: Call, after: Tables, answer: Result<Answer>)
    requires Did(before, call, after, answer) && answer.Success?
    ensures !(call.operation.Open? || call.operation.Edit? || call.operation.CloseIt?) ==> IsStaff(call.principal)
    ensures call.operation.RejectIt? ==> "support_lead" in call.principal.roles
  {
    StaffRoles(call.principal);
    hide Sees, ValidatedText, ChangeError, Newest, ApprovedText, Holds, DidMove;
  }

  // All of a ticket's rows, as they were.
  ghost predicate Untouched(before: Tables, after: Tables, t: nat)
    requires t < |before.tickets|
  {
    && t < |after.tickets| && after.tickets[t] == before.tickets[t]
    && Drafts(after.suggestions, t) == Drafts(before.suggestions, t)
    && Mails(after.outbox, t) == Mails(before.outbox, t)
    && Trail(after.audit, t) == Trail(before.audit, t)
  }

  lemma OneMoreEntry(rows: seq<Audit>, row: Audit, t: nat)
    ensures Trail(rows + [row], t) == Trail(rows, t) + if row.ticket == t then [row] else []
  {
    assert (rows + [row])[..|rows|] == rows;
  }

  // A call changes no ticket that is foreign to its caller, and adds no row for one.
  lemma ForeignTicketsStay(before: Tables, call: Call, after: Tables, answer: Result<Answer>, t: nat)
    requires Did(before, call, after, answer)
    requires t < |before.tickets| && Foreign(call.principal, before.tickets[t])
    ensures Untouched(before, after, t)
  {
    if Reason(before, call).None? {
      SeesWhatIsNotForeign(call.principal, before.tickets, call.id);
      if !call.operation.Open? {
        OnlySeenTickets(before, call);
      }
      hide Sees, Reason, Foreign, ValidatedText, ChangedField, ChangeDetail, ApprovedText;
      OthersUntouched(before, call, after, answer, t);
    }
  }

  lemma OthersUntouched(before: Tables, call: Call, after: Tables, answer: Result<Answer>, t: nat)
    requires Did(before, call, after, answer) && Reason(before, call).None?
    requires t < |before.tickets| && (call.operation.Open? || call.id != t)
    ensures Untouched(before, after, t)
  {
    hide ValidatedText, ChangedField, ChangeDetail, ApprovedText, Drafts, Mails, Trail;
    if |after.audit| > 0 {
      OneMoreEntry(before.audit, after.audit[|after.audit| - 1], t);
    }
    match call.operation
    case Suggest(_, _) => OneMoreDraft(before.suggestions, after.suggestions[|before.suggestions|], t);
    case ApproveDraft(_) =>
      var k := Newest(before.suggestions, call.id, false).value;
      OtherDraftsStay(before.suggestions, k, after.suggestions[k], t);
    case SendApproved => OneMoreMail(before.outbox, after.outbox[|before.outbox|], t);
    case _ =>
  }

  // Over a whole run, a ticket nobody but strangers to it calls for stays as it was.
  lemma {:induction false} StrangersLeaveNoTrace(states: seq<Tables>, calls: seq<Call>, answers: seq<Result<Answer>>,
      i: nat, j: nat, t: nat)
    requires Follows(states, calls, answers) && i <= j <= |calls| && t < |states[i].tickets|
    requires forall k :: i <= k < j ==> Foreign(calls[k].principal, states[i].tickets[t])
    ensures Untouched(states[i], states[j], t)
  {
    hide Did, Drafts, Mails, Trail, Foreign;
    if i < j {
      StrangersLeaveNoTrace(states, calls, answers, i, j - 1, t);
      assert Did(states[j - 1], calls[j - 1], states[j], answers[j - 1]);
      ForeignTicketsStay(states[j - 1], calls[j - 1], states[j], answers[j - 1], t);
    }
  }

  // --- What a call can learn ---

  // Two databases that differ, row by row, only in tickets hidden from someone and in rows for those.
  ghost predicate Alike(principal: Principal, a: Tables, b: Tables) {
    && TicketsAlike(principal, a.tickets, b.tickets) && DraftsAlike(principal, a, b) && AuditAlike(principal, a, b)
  }

  ghost predicate DraftsAlike(principal: Principal, a: Tables, b: Tables) {
    && |a.suggestions| == |b.suggestions|
    && forall k :: 0 <= k < |a.suggestions| ==>
         || a.suggestions[k] == b.suggestions[k]
         || BothHidden(principal, a, b, a.suggestions[k].ticket, b.suggestions[k].ticket)
  }

  ghost predicate AuditAlike(principal: Principal, a: Tables, b: Tables) {
    && |a.audit| == |b.audit|
    && forall k :: 0 <= k < |a.audit| ==>
         || a.audit[k] == b.audit[k]
         || BothHidden(principal, a, b, a.audit[k].ticket, b.audit[k].ticket)
  }

  ghost predicate TicketsAlike(principal: Principal, a: seq<Ticket>, b: seq<Ticket>) {
    |a| == |b| && forall t :: 0 <= t < |a| ==> a[t] == b[t] || (Foreign(principal, a[t]) && Foreign(principal, b[t]))
  }

  predicate BothHidden(principal: Principal, a: Tables, b: Tables, t: nat, u: nat) {
    IsHidden(principal, a.tickets, t) && IsHidden(principal, b.tickets, u)
  }

  lemma {:induction false} NewestAlike(principal: Principal, a: Tables, b: Tables, n: nat, t: nat, approved: bool)
    requires Alike(principal, a, b) && n <= |a.suggestions| && !IsHidden(principal, a.tickets, t)
    ensures Newest(a.suggestions[..n], t, approved) == Newest(b.suggestions[..n], t, approved)
    ensures var k := Newest(a.suggestions[..n], t, approved);
      k.Some? ==> a.suggestions[k.value] == b.suggestions[k.value]
  {
    assert !IsHidden(principal, b.tickets, t);
    if n > 0 {
      var rows, others := a.suggestions[..n], b.suggestions[..n];
      assert rows[..n - 1] == a.suggestions[..n - 1] && others[..n - 1] == b.suggestions[..n - 1];
      NewestAlike(principal, a, b, n - 1, t, approved);
      assert rows[n - 1] == a.suggestions[n - 1] && others[n - 1] == b.suggestions[n - 1];
      assert rows[n - 1] == others[n - 1] || (rows[n - 1].ticket != t && others[n - 1].ticket != t);
    }
  }

  lemma AllNewestAlike(principal: Principal, a: Tables, b: Tables, t: nat, approved: bool)
    requires Alike(principal, a, b) && !IsHidden(principal, a.tickets, t)
    ensures Newest(a.suggestions, t, approved) == Newest(b.suggestions, t, approved)
    ensures var k := Newest(a.suggestions, t, approved); k.Some? ==> a.suggestions[k.value] == b.suggestions[k.value]
  {
    assert a.suggestions[..|a.suggestions|] == a.suggestions && b.suggestions[..|b.suggestions|] == b.suggestions;
    NewestAlike(principal, a, b, |a.suggestions|, t, approved);
  }

  lemma SeesAlike(principal: Principal, a: Tables, b: Tables, id: nat)
    requires Alike(principal, a, b)
    ensures Sees(principal, a.tickets, id) <==> Sees(principal, b.tickets, id)
    ensures Sees(principal, a.tickets, id) ==> a.tickets[id] == b.tickets[id] && !IsHidden(principal, a.tickets, id)
  {
    SeesWhatIsNotForeign(principal, a.tickets, id);
    SeesWhatIsNotForeign(principal, b.tickets, id);
    hide Sees;
  }

  // Where two databases are alike for its caller, a call is refused in both for the same reason or in none.
  lemma ReasonsAlike(a: Tables, b: Tables, call: Call)
    requires Alike(call.principal, a, b)
    ensures Reason(a, call) == Reason(b, call)
  {
    SeesAlike(call.principal, a, b, call.id);
    if Sees(call.principal, a.tickets, call.id) {
      AllNewestAlike(call.principal, a, b, call.id, false);
      AllNewestAlike(call.principal, a, b, call.id, true);
    }
    hide Alike, Sees, ValidatedText, ChangeError, Newest, Holds, Foreign;
  }

  // The same change in both databases, from the first table to the second.
  ghost predicate SameChange(a: Tables, a': Tables, b: Tables, b': Tables) {
    && SameRows(a.tickets, a'.tickets, b.tickets, b'.tickets)
    && SameRows(a.suggestions, a'.suggestions, b.suggestions, b'.suggestions)
    && SameRows(a.audit, a'.audit, b.audit, b'.audit)
  }

  // Each row of a table is as it was, or the same in both.
  ghost predicate SameRows<T>(a: seq<T>, a': seq<T>, b: seq<T>, b': seq<T>) {
    && |a| == |b| && |a'| == |b'| && |a| <= |a'|
    && forall k :: 0 <= k < |a'| ==> a'[k] == b'[k] || (k < |a| && a'[k] == a[k] && b'[k] == b[k])
  }

  lemma DoTheSame(a: Tables, b: Tables, call: Call, a': Tables, b': Tables, answer: Result<Answer>,
      other: Result<Answer>)
    requires Alike(call.principal, a, b) && Did(a, call, a', answer) && Did(b, call, b', other)
    ensures answer == other && SameChange(a, a', b, b')
  {
    ReasonsAlike(a, b, call);
    if Reason(a, call).None? {
      SeesAlike(call.principal, a, b, call.id);
      if !call.operation.Open? {
        OnlySeenTickets(a, call);
        AllNewestAlike(call.principal, a, b, call.id, false);
        AllNewestAlike(call.principal, a, b, call.id, true);
      }
      TablesAreAsLong(call.principal, a, b);
      hide Sees, Reason, ValidatedText, ChangedField, ChangeDetail, Newest, Alike;
      if answer.Success? && answer.value.Row? {
        MovesTheSame(a, b, call, a', b', answer.value.ticket, other.value.ticket);
        hide DidMove;
      }
    }
  }

  lemma TablesAreAsLong(principal: Principal, a: Tables, b: Tables)
    requires Alike(principal, a, b)
    ensures |a.tickets| == |b.tickets| && |a.suggestions| == |b.suggestions| && |a.audit| == |b.audit|
  {
  }

  lemma MovesTheSame(a: Tables, b: Tables, call: Call, a': Tables, b': Tables, row: Ticket, other: Ticket)
    requires |a.tickets| == |b.tickets| && |a.suggestions| == |b.suggestions| && |a.audit| == |b.audit|
    requires call.id < |a.tickets| && a.tickets[call.id] == b.tickets[call.id]
    requires Reason(a, call).None? && Reason(b, call).None?
    requires forall approved ::
      var k := Newest(a.suggestions, call.id, approved);
      k == Newest(b.suggestions, call.id, approved) && (k.Some? ==> a.suggestions[k.value] == b.suggestions[k.value])
    requires DidMove(a, call, a', row) && DidMove(b, call, b', other)
    ensures row == other && SameChange(a, a', b, b')
  {
    hide ValidatedText, ChangedField, ChangeDetail;
    var first, second := Newest(a.suggestions, call.id, false), Newest(a.suggestions, call.id, true);
  }

  lemma HiddenStays(principal: Principal, before: Tables, call: Call, after: Tables, answer: Result<Answer>)
    requires Did(before, call, after, answer) && call.principal == principal
    ensures forall t: nat :: IsHidden(principal, before.tickets, t) ==> IsHidden(principal, after.tickets, t)
  {
    hide Did, Foreign, Drafts, Mails, Trail;
    forall t: nat | IsHidden(principal, before.tickets, t) ensures IsHidden(principal, after.tickets, t) {
      ForeignTicketsStay(before, call, after, answer, t);
    }
  }

  // A call answers the same in both, and leaves them alike.
  lemma AnswersAlike(a: Tables, b: Tables, call: Call, a': Tables, b': Tables, answer: Result<Answer>,
      other: Result<Answer>)
    requires Alike(call.principal, a, b) && Did(a, call, a', answer) && Did(b, call, b', other)
    ensures answer == other && Alike(call.principal, a', b')
  {
    DoTheSame(a, b, call, a', b', answer, other);
    HiddenStays(call.principal, a, call, a', answer);
    HiddenStays(call.principal, b, call, b', other);
    hide Did;
    StillAlike(call.principal, a, b, a', b');
  }

  lemma StillAlike(principal: Principal, a: Tables, b: Tables, a': Tables, b': Tables)
    requires Alike(principal, a, b) && SameChange(a, a', b, b')
    requires forall t: nat :: IsHidden(principal, a.tickets, t) ==> IsHidden(principal, a'.tickets, t)
    requires forall t: nat :: IsHidden(principal, b.tickets, t) ==> IsHidden(principal, b'.tickets, t)
    ensures Alike(principal, a', b')
  {
    hide Foreign;
    forall t | 0 <= t < |a'.tickets|
      ensures a'.tickets[t] == b'.tickets[t] ||
        (Foreign(principal, a'.tickets[t]) && Foreign(principal, b'.tickets[t]))
    {
      if t < |a.tickets| && a.tickets[t] != b.tickets[t] {
        assert IsHidden(principal, a.tickets, t) && IsHidden(principal, b.tickets, t);
      }
    }
    hide IsHidden;
    assert DraftsAlike(principal, a', b');
    assert AuditAlike(principal, a', b');
  }

  // So whoever calls, and however often, learns nothing of the tickets hidden from them.
  lemma {:induction false} NothingIsLearned(principal: Principal, calls: seq<Call>, states: seq<Tables>,
      answers: seq<Result<Answer>>, others: seq<Tables>, otherwise: seq<Result<Answer>>, k: nat)
    requires Follows(states, calls, answers) && Follows(others, calls, otherwise) && k <= |calls|
    requires Alike(principal, states[0], others[0]) && forall j :: 0 <= j < |calls| ==> calls[j].principal == principal
    ensures answers[..k] == otherwise[..k] && Alike(principal, states[k], others[k])
  {
    hide Did, Alike;
    if k > 0 {
      NothingIsLearned(principal, calls, states, answers, others, otherwise, k - 1);
      AnswersAlike(states[k - 1], others[k - 1], calls[k - 1], states[k], others[k], answers[k - 1], otherwise[k - 1]);
      assert answers[..k] == answers[..k - 1] + [answers[k - 1]];
      assert otherwise[..k] == otherwise[..k - 1] + [otherwise[k - 1]];
    }
  }

  lemma EntriesAlike(principal: Principal, a: Tables, b: Tables, k: nat, id: nat)
    requires Alike(principal, a, b) && k < |a.audit| == |b.audit| && !IsHidden(principal, a.tickets, id)
    ensures a.audit[k] == b.audit[k] || (a.audit[k].ticket != id && b.audit[k].ticket != id)
  {
    assert !IsHidden(principal, b.tickets, id);
    hide Foreign;
  }

  // Nor does a trail tell: whether it is shown and what it holds is the same in both.
  lemma {:induction false} TrailsAlike(principal: Principal, a: Tables, b: Tables, n: nat, id: nat)
    requires Alike(principal, a, b) && n <= |a.audit| && !IsHidden(principal, a.tickets, id)
    ensures Trail(a.audit[..n], id) == Trail(b.audit[..n], id)
  {
    TablesAreAsLong(principal, a, b);
    hide Alike, IsHidden, Trail;
    if n == 0 {
      assert a.audit[..0] == b.audit[..0];
    } else {
      TrailsAlike(principal, a, b, n - 1, id);
      EntriesAlike(principal, a, b, n - 1, id);
      LastEntry(a.audit, n, id);
      LastEntry(b.audit, n, id);
    }
  }

  lemma LastEntry(rows: seq<Audit>, n: nat, t: nat)
    requires 0 < n <= |rows|
    ensures Trail(rows[..n], t) == Trail(rows[..n - 1], t) + if rows[n - 1].ticket == t then [rows[n - 1]] else []
  {
    assert rows[..n][..n - 1] == rows[..n - 1];
  }

  lemma TrailsShownAlike(principal: Principal, a: Tables, b: Tables, id: nat)
    requires Alike(principal, a, b)
    ensures Sees(principal, a.tickets, id) <==> Sees(principal, b.tickets, id)
    ensures Sees(principal, a.tickets, id) ==> Trail(a.audit, id) == Trail(b.audit, id)
  {
    SeesAlike(principal, a, b, id);
    if Sees(principal, a.tickets, id) {
      TrailsAlike(principal, a, b, |a.audit|, id);
      assert a.audit[..|a.audit|] == a.audit && b.audit[..|b.audit|] == b.audit;
    }
  }
}
