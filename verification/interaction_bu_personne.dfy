/** The lending desk: three requests a member of staff or a patron makes on the catalog, each
    gated on the actor's role, on the document's presence and on its status. */
module InteractionBuPersonne {
  import opened Outcomes
  import opened StatuEmprunt
  import opened Documents
  import opened Bibliotheque
  import opened Personnes

  /** The one role that counts as staff, compared as text. */
  const EMPLOYER: string := "employer"

  /** Putting a document on hold. An absent document is refused and a free one needs no hold
      (both before the role is looked at). For a document that is not free, a patron's request
      is answered with success whatever the loan attempt it makes gives, and staff get the
      refusal of the verification hold, which needs a free document. Nothing ever changes. */
  function MiseAttenteDocumentStep(m: Catalog, d: Document, s: DocState, employer: Personne,
                                   user: string, today: int): (o: Transition)
    ensures o.livres == m && o.doc == s
    ensures o.result.status == OK || o.result.status == ERROR
    ensures d !in m ==> o.result.status == ERROR
    ensures d in m && m[d] == Libre ==> o.result.status == OK
    ensures d in m && m[d] != Libre ==> (o.result.status == OK <==> employer.perm != "employer")
  {
    if d !in m then Transition(m, s, Result(ERROR))
    else if Get(m, d) == Some(Libre) then Transition(m, s, Result(OK))
    else if employer.perm != EMPLOYER then
      var ignored := AjoutEmpruntStep(m, d, s, user, today);
      Transition(ignored.livres, ignored.doc, Result(OK))
    else AjoutEnAttenteVerifStep(m, d, s, user, today)
  }

  /** Confirming a reservation: only staff may; for staff the request is exactly a loan, since
      the loan itself refuses, without change, an absent document and one that is not free. */
  function ValiderReservationDocumentStep(m: Catalog, d: Document, s: DocState, employer: Personne,
                                          user: string, today: int): (o: Transition)
    ensures employer.perm != "employer" ==> o == Transition(m, s, Result(ERROR))
    ensures employer.perm == "employer" ==> o == AjoutEmpruntStep(m, d, s, user, today)
    ensures o.result.status == OK <==>
      employer.perm == "employer" && d in m && m[d] == Libre && !s.estReserver
    ensures OnlyLibreOrNonRendue(m) ==> OnlyLibreOrNonRendue(o.livres)
  {
    if employer.perm != EMPLOYER then Transition(m, s, Result(ERROR))
    else if d !in m then Transition(m, s, Result(ERROR))
    else if Get(m, d) != Some(Libre) then Transition(m, s, Result(ERROR))
    else AjoutEmpruntStep(m, d, s, user, today)
  }

  /** Recording a return: refused for a non-staff actor, an absent document, or a status other
      than NonRendue; and when the status is NonRendue the loan end it delegates to wants
      Reserver. So it always fails and never changes anything. */
  function EnregistrerRetourDocumentStep(m: Catalog, d: Document, s: DocState, employer: Personne,
                                         user: string): (o: Transition)
    ensures o == Transition(m, s, Result(ERROR))
  {
    if employer.perm != EMPLOYER then Transition(m, s, Result(ERROR))
    else if d !in m then Transition(m, s, Result(ERROR))
    else if Get(m, d) != Some(NonRendue) then Transition(m, s, Result(ERROR))
    else FinEmpruntStep(m, d, s, user)
  }

  method MiseAttenteDocument(bibi: Bibliotheques, d: Document, employer: Personne, user: string, today: int)
    returns (r: Result)
    modifies bibi, d
    ensures var o := MiseAttenteDocumentStep(old(bibi.livres), d, old(d.State()), employer, user, today);
      bibi.livres == o.livres && d.State() == o.doc && r == o.result
    ensures bibi.livres == old(bibi.livres) && d.State() == old(d.State())
  {
    if !bibi.CheckExist(d) {
      return Result(ERROR);
    }
    if Get(bibi.livres, d) == Some(Libre) {
      return Result(OK);
    }
    if employer.perm != EMPLOYER {
      var _ := bibi.AjoutEmprunt(user, d, today);
      return Result(OK);
    }
    r := bibi.AjoutEnAttenteVerif(user, d, today);
  }

  method ValiderReservationDocument(bibi: Bibliotheques, d: Document, employer: Personne, user: string, today: int)
    returns (r: Result)
    modifies bibi, d
    ensures var o := ValiderReservationDocumentStep(old(bibi.livres), d, old(d.State()), employer, user, today);
      bibi.livres == o.livres && d.State() == o.doc && r == o.result
  {
    if employer.perm != EMPLOYER {
      return Result(ERROR);
    }
    if !bibi.CheckExist(d) {
      return Result(ERROR);
    }
    if Get(bibi.livres, d) != Some(Libre) {
      return Result(ERROR);
    }
    r := bibi.AjoutEmprunt(user, d, today);
  }

  method EnregistrerRetourDocument(bibi: Bibliotheques, d: Document, employer: Personne, user: string)
    returns (r: Result)
    modifies bibi, d
    ensures var o := EnregistrerRetourDocumentStep(old(bibi.livres), d, old(d.State()), employer, user);
      bibi.livres == o.livres && d.State() == o.doc && r == o.result
    ensures r.status == ERROR && bibi.livres == old(bibi.livres) && d.State() == old(d.State())
  {
    if employer.perm != EMPLOYER {
      return Result(ERROR);
    }
    if !bibi.CheckExist(d) {
      return Result(ERROR);
    }
    if Get(bibi.livres, d) != Some(NonRendue) {
      return Result(ERROR);
    }
    r := bibi.FinEmprunt(user, d);
  }
}
