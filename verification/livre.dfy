/** A book: a document with a title and an author. It adds no lending behaviour of its own,
    so every lending method it has is Document's. */
module Livres {
  import opened Documents

  /** Creates a book; the flags default to false, as the constructor's own defaults do. */
  method NewLivre(counter: DocumentCounter, code: string, salle: string, titre: string, auteur: string,
                  surPlace: bool := false, estReserver: bool := false, online: bool := false)
    returns (d: Document)
    modifies counter
    ensures fresh(d)
    ensures d.code == code && d.salle == salle && d.surPlace == surPlace && d.online == online
    ensures d.details == Livre(titre, auteur)
    ensures d.State() == DocState(NO_HOLDER, estReserver, false, EPOCH, EPOCH)
    ensures counter.count == old(counter.count) + 1
  {
    d := new Document(counter, code, salle, surPlace, estReserver, online, details := Livre(titre, auteur));
  }
}
