/** The lending status the catalog records for each document. */
module StatuEmprunt {

  /** The four values of the enumeration: free, waiting for verification, lent and not
      yet returned, reserved. */
  datatype Statu = Libre | EnAttente | NonRendue | Reserver
}
