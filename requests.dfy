/** The budget-sharing requests view (`Requests`): splitting the requests
    into pending and answered ones, the checks before a request is sent,
    the budget selector and moving an answered request to the history. */
module Requests {
  import opened Wrappers
  import opened Strings
  import opened Seqs
  import opened Ledger

  /** A request to share a budget; `accepted` is `null` (`None`) while the
      requested user has not answered. */
  datatype Request = Request(
    id: string,
    budgetName: string,
    requestingUser: string,
    requestedUser: string,
    date: string,
    accepted: Option<bool>)

  predicate IsPending(r: Request) { r.accepted.None? }
  predicate IsAnswered(r: Request) { r.accepted.Some? }

  /** `requests.filter(req => req.accepted === null)` */
  function Pending(rs: seq<Request>): (r: seq<Request>)
    ensures forall i :: 0 <= i < |r| ==> r[i].accepted.None? && r[i] in rs
    ensures forall i :: 0 <= i < |rs| && rs[i].accepted.None? ==> rs[i] in r
  {
    Filter(rs, IsPending)
  }

  /** `requests.filter(req => req.accepted !== null)` */
  function Historic(rs: seq<Request>): (r: seq<Request>)
    ensures forall i :: 0 <= i < |r| ==> r[i].accepted.Some? && r[i] in rs
    ensures forall i :: 0 <= i < |rs| && rs[i].accepted.Some? ==> rs[i] in r
  {
    Filter(rs, IsAnswered)
  }

  /** Every request of the response lands in exactly one of the two lists. */
  lemma PartitionComplete(rs: seq<Request>)
    ensures |Pending(rs)| + |Historic(rs)| == |rs|
    ensures multiset(Pending(rs)) + multiset(Historic(rs)) == multiset(rs)
  {
    FilterSplitsCount(rs, IsPending, IsAnswered);
  }

  // ------------------------------------------------------ budget selector

  /** `selectBudget`: clicking the selected budget clears the selection,
      clicking any other selects it. */
  function SelectBudget(selected: Option<Budget>, b: Budget): (r: Option<Budget>)
    ensures r.None? <==> selected.Some? && selected.value.id == b.id
    ensures r.Some? ==> r.value == b
  {
    if selected.Some? && selected.value.id == b.id then None else Some(b)
  }

  /** Clicking a budget twice from an empty selection leaves nothing
      selected; clicking a different budget replaces the selection. */
  lemma SelectBudgetToggles(b: Budget, other: Budget)
    ensures SelectBudget(SelectBudget(None, b), b) == None
    ensures other.id != b.id ==> SelectBudget(Some(b), other) == Some(other)
  {
  }

  // ------------------------------------------------------ request checks

  const MissingInputMessage := "No se ha seleccionado presupuesto o no se ha escrito un nombre de usuario."
  const SelfRequestMessage := "No se puede enviar un usuario una solicitud a si mismo"
  const AlreadyAcceptedMessage := "Ya existe una solicitud aceptada para este presupuesto y usuario."
  const AlreadyPendingMessage := "Ya existe una solicitud pendiente para este presupuesto y usuario."
  const UserNotFoundMessage := "No se ha encontrado un nombre de usuario válido."

  datatype RequestOutcome = MissingInput | SelfRequest | AlreadyAccepted | AlreadyPending | Proceed

  /** The two names denote the same user: equal once trimmed and
      lower-cased. */
  predicate SameUser(a: string, b: string) {
    Lower(Trim(a)) == Lower(Trim(b))
  }

  /** A request of the history that was accepted, for this budget, from me
      to `target` (names compared exactly). */
  predicate AcceptedExists(historic: seq<Request>, budgetName: string, me: string, target: string) {
    exists i :: 0 <= i < |historic| && historic[i].budgetName == budgetName
      && historic[i].accepted == Some(true)
      && historic[i].requestingUser == me && historic[i].requestedUser == target
  }

  /** A pending request for this budget from me to `target`. */
  predicate PendingExists(pending: seq<Request>, budgetName: string, me: string, target: string) {
    exists i :: 0 <= i < |pending| && pending[i].budgetName == budgetName
      && pending[i].requestingUser == me && pending[i].requestedUser == target
  }

  /** `makeRequest` before the user lookup: the first check that fails
      decides the outcome. */
  function CheckRequest(selected: Option<Budget>, target: string, me: string,
                        pending: seq<Request>, historic: seq<Request>): (o: RequestOutcome)
    ensures o.MissingInput? <==> selected.None? || target == ""
    ensures o.SelfRequest? <==> selected.Some? && target != "" && SameUser(target, me)
    ensures o.AlreadyAccepted? <==>
              selected.Some? && target != "" && !SameUser(target, me)
              && AcceptedExists(historic, selected.value.name, me, target)
    ensures o.AlreadyPending? <==>
              selected.Some? && target != "" && !SameUser(target, me)
              && !AcceptedExists(historic, selected.value.name, me, target)
              && PendingExists(pending, selected.value.name, me, target)
    ensures o.Proceed? <==>
              selected.Some? && target != "" && !SameUser(target, me)
              && !AcceptedExists(historic, selected.value.name, me, target)
              && !PendingExists(pending, selected.value.name, me, target)
  {
    if selected.None? || target == "" then MissingInput
    else if SameUser(target, me) then SelfRequest
    else if AcceptedExists(historic, selected.value.name, me, target) then AlreadyAccepted
    else if PendingExists(pending, selected.value.name, me, target) then AlreadyPending
    else Proceed
  }

  function RequestError(o: RequestOutcome): (e: string)
    ensures e == "" <==> o.Proceed?
  {
    match o
    case MissingInput => MissingInputMessage
    case SelfRequest => SelfRequestMessage
    case AlreadyAccepted => AlreadyAcceptedMessage
    case AlreadyPending => AlreadyPendingMessage
    case Proceed => ""
  }

  /** A rejected request in the history does not stand in the way of a new
      one. */
  lemma RejectedDoesNotBlock(selected: Option<Budget>, target: string, me: string,
                             pending: seq<Request>, historic: seq<Request>, rejected: Request)
    requires rejected.accepted == Some(false)
    ensures CheckRequest(selected, target, me, pending, historic + [rejected])
            == CheckRequest(selected, target, me, pending, historic)
  {
    if selected.Some? {
      var h := historic + [rejected];
      if AcceptedExists(h, selected.value.name, me, target) {
        var i :| 0 <= i < |h| && h[i].budgetName == selected.value.name && h[i].accepted == Some(true)
                 && h[i].requestingUser == me && h[i].requestedUser == target;
        assert i < |historic| && historic[i] == h[i];
      }
      if AcceptedExists(historic, selected.value.name, me, target) {
        var i :| 0 <= i < |historic| && historic[i].budgetName == selected.value.name
                 && historic[i].accepted == Some(true)
                 && historic[i].requestingUser == me && historic[i].requestedUser == target;
        assert h[i] == historic[i];
      }
    }
  }

  /** Once the created request is in the pending list, sending the same
      request again is refused. */
  lemma CreatedBlocksRepeat(b: Budget, target: string, me: string,
                            pending: seq<Request>, historic: seq<Request>, created: Request)
    requires created.budgetName == b.name && created.requestingUser == me && created.requestedUser == target
    ensures !CheckRequest(Some(b), target, me, pending + [created], historic).Proceed?
  {
    assert (pending + [created])[|pending|] == created;
  }

  /** Answering a request that is pending once moves it: the two lists keep
      their combined length, and the history ends with the answered copy. */
  lemma ReplyKeepsCount(pending: seq<Request>, historic: seq<Request>, i: int, reply: bool)
    requires 0 <= i < |pending|
    requires forall j :: 0 <= j < |pending| && j != i ==> pending[j].id != pending[i].id
    ensures |RemoveRequest(pending, pending[i].id)| + |historic + [pending[i].(accepted := Some(reply))]|
            == |pending| + |historic|
  {
    FilterDropsOne(pending, i, x => RequestIdIsNot(pending[i].id, x));
  }

  predicate RequestIdIsNot(id: string, r: Request) { r.id != id }

  /** `prev.filter(req => req.id !== request.id)` */
  function RemoveRequest(rs: seq<Request>, id: string): (r: seq<Request>)
    ensures forall i :: 0 <= i < |r| ==> r[i].id != id && r[i] in rs
    ensures forall i :: 0 <= i < |rs| && rs[i].id != id ==> rs[i] in r
  {
    Filter(rs, x => RequestIdIsNot(id, x))
  }

  // ----------------------------------------------------------------- view

  /** The state of the requests view for the logged-in user `userName`. */
  class RequestsView {
    const userName: string
    var selectedBudget: Option<Budget>
    var requestUsername: string
    var pendingRequests: seq<Request>
    var historicRequests: seq<Request>
    var error: string

    constructor(me: string)
      ensures userName == me && selectedBudget == None && requestUsername == ""
      ensures pendingRequests == [] && historicRequests == [] && error == ""
    {
      userName := me;
      selectedBudget := None;
      requestUsername := "";
      pendingRequests := [];
      historicRequests := [];
      error := "";
    }

    /** The user's requests arrive and are split; a failed call clears the
        typed user name and leaves the lists as they were. */
    method LoadRequests(response: Option<seq<Request>>)
      modifies this
      ensures response.Some? ==>
                pendingRequests == Pending(response.value) && historicRequests == Historic(response.value)
                && requestUsername == old(requestUsername)
      ensures response.None? ==>
                pendingRequests == old(pendingRequests) && historicRequests == old(historicRequests)
                && requestUsername == ""
      ensures selectedBudget == old(selectedBudget) && error == old(error)
    {
      if response.None? {
        requestUsername := "";
        return;
      }
      pendingRequests := Pending(response.value);
      historicRequests := Historic(response.value);
    }

    method ClickBudget(b: Budget)
      modifies this
      ensures selectedBudget == SelectBudget(old(selectedBudget), b)
      ensures requestUsername == old(requestUsername) && error == old(error)
      ensures pendingRequests == old(pendingRequests) && historicRequests == old(historicRequests)
    {
      if selectedBudget.Some? && selectedBudget.value.id == b.id {
        selectedBudget := None;
      } else {
        selectedBudget := Some(b);
      }
    }

    /** `makeRequest` up to the user lookup: the error shown is the one of
        the first failing check, and `Proceed` means the lookup is made. */
    method MakeRequest() returns (o: RequestOutcome)
      modifies this
      ensures o == CheckRequest(selectedBudget, requestUsername, userName, pendingRequests, historicRequests)
      ensures error == RequestError(o)
      ensures selectedBudget == old(selectedBudget) && requestUsername == old(requestUsername)
      ensures pendingRequests == old(pendingRequests) && historicRequests == old(historicRequests)
    {
      error := "";
      if selectedBudget.None? || requestUsername == "" {
        error := MissingInputMessage;
        return MissingInput;
      }
      if SameUser(requestUsername, userName) {
        error := SelfRequestMessage;
        return SelfRequest;
      }
      if AcceptedExists(historicRequests, selectedBudget.value.name, userName, requestUsername) {
        error := AlreadyAcceptedMessage;
        return AlreadyAccepted;
      }
      if PendingExists(pendingRequests, selectedBudget.value.name, userName, requestUsername) {
        error := AlreadyPendingMessage;
        return AlreadyPending;
      }
      o := Proceed;
    }

    /** The user lookup found nobody with the typed name. */
    method UserNotFound()
      modifies this
      ensures error == UserNotFoundMessage
      ensures selectedBudget == old(selectedBudget) && requestUsername == old(requestUsername)
      ensures pendingRequests == old(pendingRequests) && historicRequests == old(historicRequests)
    {
      error := UserNotFoundMessage;
    }

    /** The server created the request: it joins the end of the pending
        list. */
    method RequestCreated(created: Request)
      modifies this
      ensures pendingRequests == old(pendingRequests) + [created]
      ensures historicRequests == old(historicRequests)
      ensures selectedBudget == old(selectedBudget) && requestUsername == old(requestUsername) && error == old(error)
    {
      pendingRequests := pendingRequests + [created];
    }

    /** `updateRequest` once the server stored the reply: the request leaves
        the pending list and its answered copy joins the end of the history. */
    method ReplyConfirmed(request: Request, reply: bool)
      modifies this
      ensures pendingRequests == RemoveRequest(old(pendingRequests), request.id)
      ensures historicRequests == old(historicRequests) + [request.(accepted := Some(reply))]
      ensures selectedBudget == old(selectedBudget) && requestUsername == old(requestUsername) && error == old(error)
    {
      pendingRequests := RemoveRequest(pendingRequests, request.id);
      historicRequests := historicRequests + [request.(accepted := Some(reply))];
    }
  }
}
