# Lending desk of the `bu` library application, modelled in Dafny

This project models the lending desk of the `bu` library application. It covers:

- the documents (books, DVDs, periodicals) with their own reservation state;
- the catalog (`Bibliotheques`), which maps each document, by object identity, to its lending status;
- the three role-gated desk requests: putting on hold, confirming a reservation and recording a return;
- the people who make these requests.

Files and modules:

- `outcomes.dfy` (`Outcomes`): the `{message, status}` reply reduced to `Result(status)`, with 200 and 500, and `Option`.
- `statuemprunt.dfy` (`StatuEmprunt`): the four lending statuses `Libre`, `EnAttente`, `NonRendue` and `Reserver`.
- `document.dfy` (`Documents`): class `Document`, the explicit document counter, and the pure step functions that specify each method.
- `livre.dfy`, `dvd.dfy`, `journal.dfy`: the three variants, each a factory over `Document`'s constructor.
- `personne.dfy` (`Personnes`): a person, with `Connection` and `ExportDict`.
- `bibiotheques.dfy` (`Bibliotheque`): class `Bibliotheques` with `var livres: map<Document, Statu>`, plus the pure step functions for each operation.
- `interaction_bu_personne.dfy` (`InteractionBuPersonne`): the three desk requests.
- `histories.dfy` (`Histories`): arbitrary sequences of requests, what they can store, and a desk scenario.

Each mutating method is proved against a pure step function. Its `ensures` says the new lending state and the reply equal what the step function gives for the old state. The step functions carry the contracts, and lemmas relate them to each other and across histories.

Dates are integer day numbers, with day 0 = 1970-01-01. The sentinel 1971-01-01 is `EPOCH = 365`. A loan window is 14 days. The current date is a `today` parameter.

A document's `code`, `salle`, `surPlace`, `online` and `details` are `const`, so no method can assign them after construction. The loan guards read `estReserver` and, for online reservations, `online`; none reads `surPlace`. `Livre`, `Dvd` and `Journal` add only descriptive fields. They are `Document` objects created with a `details` value, so their lending behaviour is `Document`'s by construction. A `Personne` is a datatype because no method changes its fields after construction. Its constructor stores the six fields unchanged.

Behaviour of the code that the model keeps as written:

- `setdefault` on a present key does not write. A successful hold for verification therefore leaves the catalog at `Libre`, and marking as not returned never changes the catalog.
- The catalog only ever stores `Libre` and `NonRendue`. Ending a loan needs `Reserver`, so it fails in every reachable catalog, and recording a return always fails.
- A request to put a free document on hold succeeds without doing anything. This check happens before the role is read, for patrons too. A patron's request attempts a loan only when the document is not free, and that loan attempt then always fails.
- The catalog status and the document's own flags can disagree. A successful hold for verification sets `attente` and leaves the status `Libre` (`AjoutEnAttenteVerifStep`). A document created already reserved is added as `Libre` too.
- Online reservation refuses only a document that is both offline and already reserved.

## Model

| member | source | states |
|---|---|---|
| `Documents.ReserverEmpruntStep` | document.py:126-135 | Succeeds iff the document is not reserved. A refusal changes nothing. Success makes the user holder, sets reserved, clears the waiting flag and opens a window from today to today + 14 days. |
| `Documents.ReserverSurPlaceStep` | document.py:65-74 | Behaves exactly as a loan reservation. |
| `Documents.MiseEnAttenteStep` | document.py:85-93 | Succeeds iff not reserved. Success records the holder and the window and sets the waiting flag, but leaves the document unreserved. A refusal changes nothing. |
| `Documents.ReserverOnlineStep` | document.py:104-115 | Refuses iff the document is offline and already reserved. A refusal changes nothing. Otherwise it has the effect of a loan reservation, also on a reserved online document. |
| `Documents.RendueStep` | document.py:146-154 | Succeeds iff reserved. Success records the returner as holder, unreserves, resets both dates to the 1971-01-01 sentinel and keeps the waiting flag. A refusal changes nothing. |
| `Documents.LoanReturnRoundTrip` | document.py:126-154 | A loan then a return both succeed. They leave a free document with sentinel dates, which a further loan accepts. |
| `Documents.ReservedRefusesReservations` | document.py:56-135 | A reserved document refuses, unchanged, loan, on-site and verification holds. It refuses an online reservation iff it is offline. |
| `Documents.MiseEnAttenteRepeats` | document.py:85-93 | A verification hold does not reserve, so a second one succeeds too. |
| `Documents.HeldUntilReturned` | document.py:56-154 | Any sequence of calls without a return keeps a reserved document reserved. For an offline document it leaves the document unchanged. |
| `Documents.DocumentCounter.constructor` | document.py:41 | The document count starts at zero. |
| `Documents.Document.constructor` | document.py:43-54 | Stores code, room, flags and details. No holder ("NA"), not waiting, both dates at the sentinel, reserved as the caller says, and the counter goes up by exactly one. |
| `Documents.Document.ReserverSurPlace` | document.py:56-74 | New lending fields and reply are those of `ReserverSurPlaceStep`. |
| `Documents.Document.MiseEnAttente` | document.py:76-93 | New lending fields and reply are those of `MiseEnAttenteStep`. |
| `Documents.Document.ReserverOnline` | document.py:95-115 | New lending fields and reply are those of `ReserverOnlineStep` for the document's own online flag. |
| `Documents.Document.ReserverEmprunt` | document.py:117-135 | New lending fields and reply are those of `ReserverEmpruntStep`. |
| `Documents.Document.Rendue` | document.py:137-154 | New lending fields and reply are those of `RendueStep`. |
| `Livres.NewLivre` | livre.py:32-56 | Code, room and the three flags go unchanged to the document, and the flags default to false. Title and author are stored. The result is a fresh `Document` in the initial state, and the count goes up by one. |
| `Dvds.NewDvd` | dvd.py:32-56 | Same as `NewLivre`, for a DVD's title and author. |
| `Journals.NewJournal` | journal.py:35-59 | Same as `NewLivre`, for a periodical's title and publication date. |
| `Personnes.Personne.Connection` | personne.py:71 | True iff both the login and the password match. |
| `Personnes.Personne.ExportDict` | personne.py:74-80 | Exactly the keys num, perm, prenom, nom and login, each mapped to its field; no password key. |
| `Personnes.ExportDictHidesPassword` | personne.py:73-80 | The export does not depend on the password. |
| `Personnes.ConnectionAcceptsOnlyOwnPassword` | personne.py:71 | A person's own credentials connect, and any other password with the same login does not. |
| `Bibliotheque.AjoutLivreStep` | bibiotheques.py:95-106 | Refused, unchanged, iff the document is present. Otherwise it enters the document as `Libre` and keeps every other entry. |
| `Bibliotheque.AjoutEnAttenteVerifStep` | bibiotheques.py:127-147 | Succeeds iff the document is present, `Libre` and not reserved. The catalog never changes. On success the document is on hold (waiting flag set). A refusal leaves the document unchanged. |
| `Bibliotheque.SupprimerLivreStep` | bibiotheques.py:164-175 | Refused, unchanged, iff absent. Otherwise it removes exactly that key and keeps every other entry. |
| `Bibliotheque.AjoutEmpruntStep` | bibiotheques.py:193-216 | Succeeds iff present, `Libre` and not reserved. The status then becomes `NonRendue` and the document is lent. Every refusal (absent, not `Libre`, document refuses) changes nothing. |
| `Bibliotheque.AjoutNonRendueStep` | bibiotheques.py:232-249 | Never changes the catalog. Refused iff absent. |
| `Bibliotheque.FinEmpruntStep` | bibiotheques.py:267-284 | Succeeds iff the stored status is `Reserver` and the document is reserved. The status then becomes `Libre` and the document is returned. An absent document is refused. A catalog holding only `Libre`/`NonRendue` always refuses, unchanged. |
| `Bibliotheque.Bibliotheques.constructor` | bibiotheques.py:48-52 | A new catalog is empty. |
| `Bibliotheque.Bibliotheques.CheckExist` | bibiotheques.py:68 | The lookup with default "NA" differs from "NA" iff the document is a key. |
| `Bibliotheque.Bibliotheques.Consulter` | bibiotheques.py:79 | Returns every existing document with its stored status. |
| `Bibliotheque.Bibliotheques.AjoutLivre` | bibiotheques.py:81-106 | New catalog and reply are those of `AjoutLivreStep`. |
| `Bibliotheque.Bibliotheques.AjoutEnAttenteVerif` | bibiotheques.py:108-147 | New catalog, document state and reply are those of `AjoutEnAttenteVerifStep`. |
| `Bibliotheque.Bibliotheques.SupprimerLivre` | bibiotheques.py:150-175 | New catalog and reply are those of `SupprimerLivreStep`. |
| `Bibliotheque.Bibliotheques.AjoutEmprunt` | bibiotheques.py:177-216 | New catalog, document state and reply are those of `AjoutEmpruntStep`. |
| `Bibliotheque.Bibliotheques.AjoutNonRendue` | bibiotheques.py:218-249 | New catalog and reply are those of `AjoutNonRendueStep`. |
| `Bibliotheque.Bibliotheques.FinEmprunt` | bibiotheques.py:251-284 | New catalog, document state and reply are those of `FinEmpruntStep`. |
| `InteractionBuPersonne.MiseAttenteDocumentStep` | interaction_bu_personne.py:31-51 | Never changes anything. Absent gives 500; `Libre` gives 200 whatever the role. Otherwise a non-"employer" gets 200 whatever the loan attempt returned, and an "employer" gets 500. |
| `InteractionBuPersonne.ValiderReservationDocumentStep` | interaction_bu_personne.py:74-93 | A non-"employer" gets 500 with no change, before existence is checked. For an "employer" the result and effect are exactly those of the loan. It succeeds iff employer, present, `Libre` and not reserved. |
| `InteractionBuPersonne.EnregistrerRetourDocumentStep` | interaction_bu_personne.py:116-134 | Always 500 and no change. It reaches the loan end only at `NonRendue`, and the loan end needs `Reserver`. |
| `InteractionBuPersonne.MiseAttenteDocument` | interaction_bu_personne.py:11-51 | Follows `MiseAttenteDocumentStep`, and leaves the catalog and the document unchanged. |
| `InteractionBuPersonne.ValiderReservationDocument` | interaction_bu_personne.py:54-93 | Follows `ValiderReservationDocumentStep`. |
| `InteractionBuPersonne.EnregistrerRetourDocument` | interaction_bu_personne.py:96-134 | Follows `EnregistrerRetourDocumentStep`: always 500, and the catalog and the document are unchanged. |
| `Histories.Apply` | bibiotheques.py:95-284 | No catalog or desk request stores a status other than `Libre` or `NonRendue`. |
| `Histories.ReplayKeepsOnlyLibreOrNonRendue` | bibiotheques.py:101-271 | Every sequence of requests keeps the catalog within `Libre` and `NonRendue`. |
| `Histories.EndLoanFailsAfterAnyHistory` | bibiotheques.py:267-271 | Starting from an empty catalog, no history stores `Reserver` or `EnAttente`, so ending a loan fails, unchanged, in every reachable catalog. |

## Left out

- Messages: the f-string messages of every reply are not modelled. Only the status, 200 or 500, is kept.
- Clock: `datetime.now()` becomes a `today` day-number parameter. The time of day is dropped, along with the mismatch between a date and a datetime in the stored window ends (a full datetime at document.py:72, a date at document.py:133, a datetime sentinel at document.py:151-152).
- `None` documents: the `document and …` guards would crash on `document.code` when given `None`. Documents are non-null references here.
- `Bibliotheque.Bibliotheques.Consulter`: returns the map's value. Python returns the dictionary itself, so a caller could change the catalog through it; that aliasing is not modelled.
- Document counter: the class attribute `num_document` becomes an explicit `DocumentCounter` object passed to each constructor, instead of global state.
- `statuemprunt.py` is not part of this model. The enumeration is rebuilt from the four values the code uses.
- main.py: the web routes, cookies, templates and database setup are not modelled. The database import in interaction_bu_personne.py:8 is unused.
- `__main__` demonstration blocks are not modelled.
- Histories: each request in a `Histories.Request` carries an arbitrary document state. The history lemmas therefore hold for every sequence of document states, which includes the ones the documents actually go through.
