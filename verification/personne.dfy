/** A person known to the library: patron or member of staff, with credentials. */
module Personnes {

  /** The fields are those the constructor stores, unchanged; `perm` is the role the lending
      protocol reads. */
  datatype Personne = Personne(num: string, perm: string, nom: string, prenom: string,
                               login: string, password: string)
  {
    /** Credentials are accepted exactly when both the login and the password match. */
    function Connection(givenLogin: string, givenPassword: string): (ok: bool)
      ensures ok <==> givenLogin == login && givenPassword == password
    {
      login == givenLogin && password == givenPassword
    }

    /** The public view of a person: every field except the password, under its own name. */
    function ExportDict(): (r: map<string, string>)
      ensures r.Keys == {"num", "perm", "prenom", "nom", "login"}
      ensures r["num"] == num && r["perm"] == perm && r["prenom"] == prenom
      ensures r["nom"] == nom && r["login"] == login
      ensures "password" !in r
    {
      map["num" := num, "perm" := perm, "prenom" := prenom, "nom" := nom, "login" := login]
    }
  }

  /** The exported view does not depend on the password: two people who differ only in their
      password export the same dictionary. */
  lemma ExportDictHidesPassword(p: Personne, other: string)
    ensures p.ExportDict() == p.(password := other).ExportDict()
  {
  }

  /** A person accepts their own credentials and refuses any other password. */
  lemma ConnectionAcceptsOnlyOwnPassword(p: Personne, wrong: string)
    requires wrong != p.password
    ensures p.Connection(p.login, p.password)
    ensures !p.Connection(p.login, wrong)
  {
  }
}
