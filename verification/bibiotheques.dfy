/** The catalog: which documents the library holds, and the lending status of each. */
module Bibliotheque {
  import opened Outcomes
  import opened StatuEmprunt
  import opened Documents

  /** Documents, keyed by object identity, with their status. */
  type Catalog = map<Document, Statu>

  /** What `get` returns: the stored status, or nothing for an absent document. */
  function Get(m: Catalog, d: Document): Option<Statu>
  {
    if d in m then Some(m[d]) else None
  }

  /** What `get` with a default returns: the stored status, or the default text. */
  datatype Lookup = Stored(status: Statu) | Default(text: string)

  function GetOr(m: Catalog, d: Document, default: string): Lookup
  {
    if d in m then Stored(m[d]) else Default(default)
  }

  /** `setdefault`: stores the value only when the key is absent; a present key keeps its
      status. */
  function SetDefault(m: Catalog, d: Document, v: Statu): Catalog
  {
    if d in m then m else m[d := v]
  }

  /** The only statuses the catalog ever writes are Libre and NonRendue. */
  predicate OnlyLibreOrNonRendue(m: Catalog)
  {
    forall d :: d in m ==> m[d] == Libre || m[d] == NonRendue
  }

  /** The catalog after an operation that does not touch the document, and its reply. */
  datatype Update = Update(livres: Catalog, result: Result)

  /** The catalog and the document's state after an operation that may delegate to the
      document, and its reply. */
  datatype Transition = Transition(livres: Catalog, doc: DocState, result: Result)

  /* The step functions below test membership with `d in m`: `CheckExist` is proved equal to
     it. */

  /** Adding: refused for a document already present; otherwise the document is entered as
      Libre and every other entry is kept. */
  function AjoutLivreStep(m: Catalog, d: Document): (o: Update)
    ensures o.result.status == ERROR <==> d in m
    ensures o.result.status == OK <==> d !in m
    ensures d in m ==> o.livres == m
    ensures d !in m ==> o.livres.Keys == m.Keys + {d} && o.livres[d] == Libre
    ensures forall k :: k in m && k != d ==> k in o.livres && o.livres[k] == m[k]
    ensures OnlyLibreOrNonRendue(m) ==> OnlyLibreOrNonRendue(o.livres)
  {
    if d in m then Update(m, Result(ERROR))
    else Update(SetDefault(m, d, Libre), Result(OK))
  }

  /** Holding for verification: refused for an absent document, for one whose status is not
      Libre, and for one the document itself refuses (already reserved). The catalog is never
      changed, not even on success, because the status is written with `setdefault` on a key
      that is present; only the document is put on hold. */
  function AjoutEnAttenteVerifStep(m: Catalog, d: Document, s: DocState, user: string, today: int): (o: Transition)
    ensures o.result.status == OK || o.result.status == ERROR
    ensures o.result.status == OK <==> d in m && m[d] == Libre && !s.estReserver
    ensures o.livres == m
    ensures o.result.status == OK ==> o.doc == MiseEnAttenteStep(s, user, today).state && o.doc.attente
    ensures o.result.status == ERROR ==> o.doc == s
  {
    if d !in m then Transition(m, s, Result(ERROR))
    else if Get(m, d) == Some(Libre) then
      var back := MiseEnAttenteStep(s, user, today);
      if back.result.status == OK then Transition(SetDefault(m, d, EnAttente), back.state, Result(OK))
      else Transition(m, back.state, Result(ERROR))
    else Transition(m, s, Result(ERROR))
  }

  /** Removing: refused for an absent document; otherwise exactly that entry disappears. */
  function SupprimerLivreStep(m: Catalog, d: Document): (o: Update)
    ensures o.result.status == ERROR <==> d !in m
    ensures o.result.status == OK <==> d in m
    ensures d !in m ==> o.livres == m
    ensures o.livres.Keys == m.Keys - {d}
    ensures forall k :: k in o.livres ==> o.livres[k] == m[k]
    ensures OnlyLibreOrNonRendue(m) ==> OnlyLibreOrNonRendue(o.livres)
  {
    if d !in m then Update(m, Result(ERROR))
    else Update(m - {d}, Result(OK))
  }

  /** Lending: succeeds exactly for a present document whose status is Libre and which the
      document itself accepts (not reserved); the status becomes NonRendue and the document is
      reserved for the user. In every refused case nothing changes. */
  function AjoutEmpruntStep(m: Catalog, d: Document, s: DocState, user: string, today: int): (o: Transition)
    ensures o.result.status == OK || o.result.status == ERROR
    ensures o.result.status == OK <==> d in m && m[d] == Libre && !s.estReserver
    ensures o.result.status == OK ==>
      o.livres == m[d := NonRendue] && o.doc == ReserverEmpruntStep(s, user, today).state
    ensures o.result.status == ERROR ==> o.livres == m && o.doc == s
    ensures OnlyLibreOrNonRendue(m) ==> OnlyLibreOrNonRendue(o.livres)
  {
    if d !in m then Transition(m, s, Result(ERROR))
    else if Get(m, d) == Some(Libre) then
      var back := ReserverEmpruntStep(s, user, today);
      if back.result.status == OK then Transition(m[d := NonRendue], back.state, Result(OK))
      else Transition(m, back.state, Result(ERROR))
    else Transition(m, s, Result(ERROR))
  }

  /** Marking as not returned: refused only for an absent document; the catalog is never
      changed, because a Reserver entry is reported without a write and every other present
      entry is written with `setdefault`. */
  function AjoutNonRendueStep(m: Catalog, d: Document): (o: Update)
    ensures o.result.status == ERROR <==> d !in m
    ensures o.result.status == OK <==> d in m
    ensures o.livres == m
  {
    if d !in m then Update(m, Result(ERROR))
    else if Get(m, d) == Some(Reserver) then Update(m, Result(OK))
    else Update(SetDefault(m, d, NonRendue), Result(OK))
  }

  /** Ending a loan: succeeds exactly when the status is Reserver (an absent document has no
      status, so it is refused) and the document accepts the return; the status then becomes
      Libre. In a catalog holding only Libre and NonRendue it always fails. */
  function FinEmpruntStep(m: Catalog, d: Document, s: DocState, user: string): (o: Transition)
    ensures o.result.status == OK || o.result.status == ERROR
    ensures o.result.status == OK <==> Get(m, d) == Some(Reserver) && s.estReserver
    ensures o.result.status == OK ==>
      o.livres == m[d := Libre] && o.doc == RendueStep(s, user).state
    ensures o.result.status == ERROR ==> o.livres == m && o.doc == s
    ensures OnlyLibreOrNonRendue(m) ==> o == Transition(m, s, Result(ERROR))
  {
    if Get(m, d) == Some(Reserver) then
      var back := RendueStep(s, user);
      if back.result.status == OK then Transition(m[d := Libre], back.state, Result(OK))
      else Transition(m, back.state, Result(ERROR))
    else Transition(m, s, Result(ERROR))
  }

  /** A catalog of documents. The documents themselves belong to their creators; the catalog
      calls their lending methods. */
  class Bibliotheques {
    var livres: Catalog

    /** An empty catalog. */
    constructor ()
      ensures livres == map[]
    {
      livres := map[];
    }

    /** A document exists when looking it up with the default "NA" does not give "NA": no
        status is that text, so this is exactly membership. */
    function CheckExist(d: Document): (b: bool)
      reads this
      ensures b <==> d in livres
    {
      GetOr(livres, d, "NA") != Default("NA")
    }

    /** The whole catalog: the documents that exist, each with its status. */
    function Consulter(): (m: Catalog)
      reads this
      ensures forall d :: d in m ==> CheckExist(d) && Get(livres, d) == Some(m[d])
      ensures forall d :: d in livres ==> d in m
    {
      livres
    }

    method AjoutLivre(d: Document) returns (r: Result)
      modifies this
      ensures var o := AjoutLivreStep(old(livres), d); livres == o.livres && r == o.result
    {
      if CheckExist(d) {
        return Result(ERROR);
      }
      livres := SetDefault(livres, d, Libre);
      return Result(OK);
    }

    method AjoutEnAttenteVerif(user: string, d: Document, today: int) returns (r: Result)
      modifies this, d
      ensures var o := AjoutEnAttenteVerifStep(old(livres), d, old(d.State()), user, today);
        livres == o.livres && d.State() == o.doc && r == o.result
    {
      if !CheckExist(d) {
        return Result(ERROR);
      }
      if Get(livres, d) == Some(Libre) {
        var back := d.MiseEnAttente(user, today);
        if back.status == OK {
          livres := SetDefault(livres, d, EnAttente);
          return Result(OK);
        }
      }
      return Result(ERROR);
    }

    method SupprimerLivre(d: Document) returns (r: Result)
      modifies this
      ensures var o := SupprimerLivreStep(old(livres), d); livres == o.livres && r == o.result
    {
      if !CheckExist(d) {
        return Result(ERROR);
      }
      livres := livres - {d};
      return Result(OK);
    }

    method AjoutEmprunt(user: string, d: Document, today: int) returns (r: Result)
      modifies this, d
      ensures var o := AjoutEmpruntStep(old(livres), d, old(d.State()), user, today);
        livres == o.livres && d.State() == o.doc && r == o.result
    {
      if !CheckExist(d) {
        return Result(ERROR);
      }
      if Get(livres, d) == Some(Libre) {
        var back := d.ReserverEmprunt(user, today);
        if back.status == OK {
          livres := livres[d := NonRendue];
          return Result(OK);
        } else {
          return Result(ERROR);
        }
      }
      return Result(ERROR);
    }

    method AjoutNonRendue(d: Document) returns (r: Result)
      modifies this
      ensures var o := AjoutNonRendueStep(old(livres), d); livres == o.livres && r == o.result
    {
      if !CheckExist(d) {
        return Result(ERROR);
      }
      if Get(livres, d) == Some(Reserver) {
        return Result(OK);
      }
      livres := SetDefault(livres, d, NonRendue);
      return Result(OK);
    }

    method FinEmprunt(user: string, d: Document) returns (r: Result)
      modifies this, d
      ensures var o := FinEmpruntStep(old(livres), d, old(d.State()), user);
        livres == o.livres && d.State() == o.doc && r == o.result
    {
      if Get(livres, d) == Some(Reserver) {
        var back := d.Rendue(user);
        if back.status == OK {
          livres := livres[d := Libre];
          return Result(OK);
        }
        return Result(ERROR);
      }
      return Result(ERROR);
    }
  }
}
