/** Whole histories of requests on a catalog: which statuses can ever be stored, and what
    that means for returning a document. */
module Histories {
  import opened Outcomes
  import opened StatuEmprunt
  import opened Documents
  import opened Bibliotheque
  import opened Personnes
  import opened InteractionBuPersonne

  /** One state-changing request on the catalog, directly or through the lending desk. A
      request that reaches a document carries the document's lending state at that moment; any
      state is allowed, so what is proved holds whatever the documents go through. */
  datatype Request =
    | Add(d: Document)
    | Remove(d: Document)
    | HoldForVerification(user: string, d: Document, s: DocState, today: int)
    | Lend(user: string, d: Document, s: DocState, today: int)
    | MarkNotReturned(d: Document)
    | EndLoan(user: string, d: Document, s: DocState)
    | RequestHold(d: Document, employer: Personne, user: string, s: DocState, today: int)
    | ConfirmReservation(d: Document, employer: Personne, user: string, s: DocState, today: int)
    | RecordReturn(d: Document, employer: Personne, user: string, s: DocState)

  /** The catalog after one request. No request stores a status other than Libre or
      NonRendue. */
  function Apply(m: Catalog, q: Request): (r: Catalog)
    ensures OnlyLibreOrNonRendue(m) ==> OnlyLibreOrNonRendue(r)
  {
    match q
    case Add(d) => AjoutLivreStep(m, d).livres
    case Remove(d) => SupprimerLivreStep(m, d).livres
    case HoldForVerification(u, d, s, t) => AjoutEnAttenteVerifStep(m, d, s, u, t).livres
    case Lend(u, d, s, t) => AjoutEmpruntStep(m, d, s, u, t).livres
    case MarkNotReturned(d) => AjoutNonRendueStep(m, d).livres
    case EndLoan(u, d, s) => FinEmpruntStep(m, d, s, u).livres
    case RequestHold(d, e, u, s, t) => MiseAttenteDocumentStep(m, d, s, e, u, t).livres
    case ConfirmReservation(d, e, u, s, t) => ValiderReservationDocumentStep(m, d, s, e, u, t).livres
    case RecordReturn(d, e, u, s) => EnregistrerRetourDocumentStep(m, d, s, e, u).livres
  }

  /** The catalog after a sequence of requests, in order. */
  function Replay(m: Catalog, qs: seq<Request>): Catalog
    decreases |qs|
  {
    if qs == [] then m else Replay(Apply(m, qs[0]), qs[1..])
  }

  /** Every history keeps the catalog within Libre and NonRendue. */
  lemma {:induction false} ReplayKeepsOnlyLibreOrNonRendue(m: Catalog, qs: seq<Request>)
    requires OnlyLibreOrNonRendue(m)
    ensures OnlyLibreOrNonRendue(Replay(m, qs))
    decreases |qs|
  {
    if qs != [] {
      ReplayKeepsOnlyLibreOrNonRendue(Apply(m, qs[0]), qs[1..]);
    }
  }

  /** Starting from an empty catalog, no history ever stores Reserver or EnAttente, so ending a
      loan fails, without change, for every document in every reachable catalog. */
  lemma EndLoanFailsAfterAnyHistory(qs: seq<Request>, d: Document, s: DocState, user: string)
    ensures var m := Replay(map[], qs);
      && (forall k :: k in m ==> m[k] != Reserver && m[k] != EnAttente)
      && FinEmpruntStep(m, d, s, user) == Transition(m, s, Result(ERROR))
  {
    ReplayKeepsOnlyLibreOrNonRendue(map[], qs);
  }

  /** The desk as a whole: a book added and lent to a patron is not returned, a second loan is
      refused, a return recorded by staff fails, removing a document never added is refused, and
      a patron's hold on a free DVD succeeds without lending it. */
  method DeskScenario()
  {
    var counter := new DocumentCounter();
    var bibi := new Bibliotheques();
    var livre := new Document(counter, "22222", "8d-121", details := Livre("Le Petit Prince", "Saint-Exupery"));
    var staff := Personne("001", "employer", "Dupont", "Jean", "jean.dupont", "secret");
    var r := bibi.AjoutLivre(livre);
    assert r.status == OK && bibi.livres[livre] == Libre;
    r := bibi.AjoutEmprunt("usager123", livre, 20000);
    assert r.status == OK && bibi.livres[livre] == NonRendue && livre.estReserver;
    r := bibi.AjoutEmprunt("usager456", livre, 20001);
    assert r.status == ERROR;
    r := EnregistrerRetourDocument(bibi, livre, staff, "usager123");
    assert r.status == ERROR && livre.estReserver;
    var dvd := new Document(counter, "DVD123", "multimedia", details := Dvd("Film", "Doe"));
    r := bibi.SupprimerLivre(dvd);
    assert r.status == ERROR;
    r := bibi.AjoutLivre(dvd);
    var patron := Personne("002", "usager", "Martin", "Ana", "ana.martin", "pw");
    r := MiseAttenteDocument(bibi, dvd, patron, "002", 20002);
    assert r.status == OK && bibi.livres[dvd] == Libre && !dvd.estReserver;
    assert counter.count == 2;
  }
}
