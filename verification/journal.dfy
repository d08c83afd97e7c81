/** A periodical: a document with a title and a publication date (a timestamp). It adds no
    lending behaviour of its own, so every lending method it has is Document's. */
module Journals {
  import opened Documents

  /** Creates a periodical; the flags default to false, as the constructor's own defaults do. */
  method NewJournal(counter: DocumentCounter, code: string, salle: string, titre: string, date: int,
                    surPlace: bool := false, estReserver: bool := false, online: bool := false)
    returns (d: Document)
    modifies counter
    ensures fresh(d)
    ensures d.code == code && d.salle == salle && d.surPlace == surPlace && d.online == online
    ensures d.details == Journal(titre, date)
    ensures d.State() == DocState(NO_HOLDER, estReserver, false, EPOCH, EPOCH)
    ensures counter.count == old(counter.count) + 1
  {
    d := new Document(counter, code, salle, surPlace, estReserver, online, details := Journal(titre, date));
  }
}
