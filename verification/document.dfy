/** A document of the library and its own reservation state: who holds it, whether it is
    reserved or waiting for verification, and its loan window. */
module Documents {
  import opened Outcomes

  /** Day number of 1971-01-01 (day 0 is 1970-01-01): the date both loan-window fields hold
      when no loan is running. */
  const EPOCH: int := 365
  /** A loan window lasts two weeks. */
  const LOAN_DAYS: int := 14
  /** The holder recorded on a document nobody has reserved yet. */
  const NO_HOLDER: string := "NA"

  /** The descriptive fields of the document variants; a plain document has none. */
  datatype Details =
    | Plain
    | Livre(title: string, auteur: string)
    | Dvd(title: string, auteur: string)
    | Journal(titre: string, date: int)

  /** The fields the lending methods read and write: holder, reserved flag, waiting flag,
      first and last day of the loan window. */
  datatype DocState = DocState(num: string, estReserver: bool, attente: bool, debut: int, fin: int)

  /** The state of a document after an operation, and the operation's reply. */
  datatype DocOutcome = DocOutcome(state: DocState, result: Result)

  /** Reserving for a loan: refused while the document is reserved; otherwise the user becomes
      the holder of a reserved, not waiting document lent from today for two weeks. */
  function ReserverEmpruntStep(s: DocState, user: string, today: int): (o: DocOutcome)
    ensures o.result.status == OK || o.result.status == ERROR
    ensures o.result.status == OK <==> !s.estReserver
    ensures o.result.status == ERROR ==> o.state == s
    ensures o.result.status == OK ==>
      && o.state.num == user && o.state.estReserver && !o.state.attente
      && o.state.debut == today && o.state.fin == o.state.debut + LOAN_DAYS
  {
    if s.estReserver then DocOutcome(s, Result(ERROR))
    else DocOutcome(s.(num := user, estReserver := true, attente := false,
                       debut := today, fin := today + LOAN_DAYS), Result(OK))
  }

  /** Reserving for on-site pickup behaves exactly as reserving for a loan. */
  function ReserverSurPlaceStep(s: DocState, user: string, today: int): (o: DocOutcome)
    ensures o == ReserverEmpruntStep(s, user, today)
  {
    if s.estReserver then DocOutcome(s, Result(ERROR))
    else DocOutcome(s.(num := user, estReserver := true, attente := false,
                       debut := today, fin := today + LOAN_DAYS), Result(OK))
  }

  /** Putting on hold pending verification: refused while reserved; otherwise records the
      user and a two-week window and raises the waiting flag, but leaves the document
      unreserved. */
  function MiseEnAttenteStep(s: DocState, user: string, today: int): (o: DocOutcome)
    ensures o.result.status == OK || o.result.status == ERROR
    ensures o.result.status == OK <==> !s.estReserver
    ensures o.result.status == ERROR ==> o.state == s
    ensures o.result.status == OK ==>
      && o.state.num == user && !o.state.estReserver && o.state.attente
      && o.state.debut == today && o.state.fin == o.state.debut + LOAN_DAYS
  {
    if s.estReserver then DocOutcome(s, Result(ERROR))
    else DocOutcome(s.(num := user, attente := true, debut := today, fin := today + LOAN_DAYS),
                    Result(OK))
  }

  /** Reserving online: refused only for a document that is both not reservable online and
      already reserved; in every other case, the reserved ones included, it takes the same
      effect as a loan reservation. */
  function ReserverOnlineStep(s: DocState, online: bool, user: string, today: int): (o: DocOutcome)
    ensures o.result.status == OK || o.result.status == ERROR
    ensures o.result.status == ERROR <==> !online && s.estReserver
    ensures o.result.status == ERROR ==> o.state == s
    ensures o.result.status == OK ==>
      o.state == ReserverEmpruntStep(s.(estReserver := false), user, today).state
  {
    if !online && s.estReserver then DocOutcome(s, Result(ERROR))
    else DocOutcome(s.(num := user, estReserver := true, attente := false,
                       debut := today, fin := today + LOAN_DAYS), Result(OK))
  }

  /** Returning: refused when the document is not reserved; otherwise the returner is recorded
      as holder, the document is unreserved and both window dates go back to the sentinel. The
      waiting flag is left as it was. */
  function RendueStep(s: DocState, user: string): (o: DocOutcome)
    ensures o.result.status == OK || o.result.status == ERROR
    ensures o.result.status == OK <==> s.estReserver
    ensures o.result.status == ERROR ==> o.state == s
    ensures o.result.status == OK ==>
      && o.state.num == user && !o.state.estReserver && o.state.attente == s.attente
      && o.state.debut == EPOCH && o.state.fin == EPOCH
  {
    if !s.estReserver then DocOutcome(s, Result(ERROR))
    else DocOutcome(s.(num := user, estReserver := false, debut := EPOCH, fin := EPOCH), Result(OK))
  }

  /** A loan followed by its return leaves a free document with an empty window, which can be
      lent again. */
  lemma LoanReturnRoundTrip(s: DocState, user: string, today: int, returner: string, next: string, later: int)
    requires !s.estReserver
    ensures var lent := ReserverEmpruntStep(s, user, today);
      && lent.result.status == OK
      && var back := RendueStep(lent.state, returner);
      && back.result.status == OK
      && back.state == DocState(returner, false, false, EPOCH, EPOCH)
      && ReserverEmpruntStep(back.state, next, later).result.status == OK
  {
  }

  /** A reserved document refuses every reservation except an online one on a document
      reservable online. */
  lemma ReservedRefusesReservations(s: DocState, online: bool, user: string, today: int)
    requires s.estReserver
    ensures ReserverEmpruntStep(s, user, today) == DocOutcome(s, Result(ERROR))
    ensures ReserverSurPlaceStep(s, user, today) == DocOutcome(s, Result(ERROR))
    ensures MiseEnAttenteStep(s, user, today) == DocOutcome(s, Result(ERROR))
    ensures ReserverOnlineStep(s, online, user, today).result.status == ERROR <==> !online
  {
  }

  /** Putting a document on hold never reserves it, so a second hold by anyone succeeds too. */
  lemma MiseEnAttenteRepeats(s: DocState, first: string, second: string, today: int, later: int)
    requires !s.estReserver
    ensures var held := MiseEnAttenteStep(s, first, today);
      && held.result.status == OK
      && MiseEnAttenteStep(held.state, second, later).result.status == OK
  {
  }

  /** One call of a lending method of a document. */
  datatype DocRequest =
    | SurPlace(user: string, today: int)
    | Attente(user: string, today: int)
    | Online(user: string, today: int)
    | Emprunt(user: string, today: int)
    | Retour(user: string)

  /** The state of a document reservable online or not (`online`) after one call. */
  function Apply(s: DocState, online: bool, q: DocRequest): DocState
  {
    match q
    case SurPlace(u, t) => ReserverSurPlaceStep(s, u, t).state
    case Attente(u, t) => MiseEnAttenteStep(s, u, t).state
    case Online(u, t) => ReserverOnlineStep(s, online, u, t).state
    case Emprunt(u, t) => ReserverEmpruntStep(s, u, t).state
    case Retour(u) => RendueStep(s, u).state
  }

  /** The state of a document after a sequence of calls, in order. */
  function Run(s: DocState, online: bool, qs: seq<DocRequest>): DocState
    decreases |qs|
  {
    if qs == [] then s else Run(Apply(s, online, qs[0]), online, qs[1..])
  }

  /** Exclusivity of a reservation: once reserved, a document stays reserved through any calls
      that do not include a return, and when it is not reservable online none of those calls
      changes it at all. */
  lemma {:induction false} HeldUntilReturned(s: DocState, online: bool, qs: seq<DocRequest>)
    requires s.estReserver
    requires forall i :: 0 <= i < |qs| ==> !qs[i].Retour?
    ensures Run(s, online, qs).estReserver
    ensures !online ==> Run(s, online, qs) == s
    decreases |qs|
  {
    if qs != [] {
      HeldUntilReturned(Apply(s, online, qs[0]), online, qs[1..]);
    }
  }

  /** The process-wide count of documents created so far. */
  class DocumentCounter {
    var count: nat

    constructor ()
      ensures count == 0
    {
      count := 0;
    }
  }

  /** A reservable document. Its identity fields are fixed at creation; its lending fields are
      updated in place by its methods. */
  class Document {
    const code: string
    const salle: string
    const surPlace: bool
    const online: bool
    const details: Details
    var num: string
    var estReserver: bool
    var attente: bool
    var dateDebut: int
    var dateFin: int

    /** The lending fields as one value. */
    function State(): DocState
      reads this
    {
      DocState(num, estReserver, attente, dateDebut, dateFin)
    }

    /** A new document has no holder, is not waiting, has an empty window, and is reserved
        exactly when the caller says so; the document count goes up by one. */
    constructor (counter: DocumentCounter, code: string, salle: string, surPlace: bool := false,
                 estReserver: bool := false, online: bool := false, details: Details := Plain)
      modifies counter
      ensures this.code == code && this.salle == salle && this.details == details
      ensures this.surPlace == surPlace && this.online == online
      ensures State() == DocState(NO_HOLDER, estReserver, false, EPOCH, EPOCH)
      ensures counter.count == old(counter.count) + 1
    {
      this.code := code;
      num := NO_HOLDER;
      this.salle := salle;
      this.estReserver := estReserver;
      this.surPlace := surPlace;
      this.online := online;
      this.details := details;
      attente := false;
      dateFin := EPOCH;
      dateDebut := EPOCH;
      new;
      counter.count := counter.count + 1;
    }

    method ReserverSurPlace(user: string, today: int) returns (r: Result)
      modifies this
      ensures var o := ReserverSurPlaceStep(old(State()), user, today);
        State() == o.state && r == o.result
    {
      if estReserver {
        return Result(ERROR);
      }
      num := user;
      estReserver := true;
      attente := false;
      dateDebut := today;
      dateFin := today + LOAN_DAYS;
      return Result(OK);
    }

    method MiseEnAttente(user: string, today: int) returns (r: Result)
      modifies this
      ensures var o := MiseEnAttenteStep(old(State()), user, today);
        State() == o.state && r == o.result
    {
      if estReserver {
        return Result(ERROR);
      }
      num := user;
      attente := true;
      dateDebut := today;
      dateFin := today + LOAN_DAYS;
      return Result(OK);
    }

    method ReserverOnline(user: string, today: int) returns (r: Result)
      modifies this
      ensures var o := ReserverOnlineStep(old(State()), online, user, today);
        State() == o.state && r == o.result
    {
      if !online && estReserver {
        return Result(ERROR);
      }
      num := user;
      estReserver := true;
      attente := false;
      dateDebut := today;
      dateFin := today + LOAN_DAYS;
      return Result(OK);
    }

    method ReserverEmprunt(user: string, today: int) returns (r: Result)
      modifies this
      ensures var o := ReserverEmpruntStep(old(State()), user, today);
        State() == o.state && r == o.result
    {
      if estReserver {
        return Result(ERROR);
      }
      num := user;
      estReserver := true;
      attente := false;
      dateDebut := today;
      dateFin := today + LOAN_DAYS;
      return Result(OK);
    }

    method Rendue(user: string) returns (r: Result)
      modifies this
      ensures var o := RendueStep(old(State()), user);
        State() == o.state && r == o.result
    {
      if !estReserver {
        return Result(ERROR);
      }
      num := user;
      estReserver := false;
      dateDebut := EPOCH;
      dateFin := EPOCH;
      return Result(OK);
    }
  }
}
