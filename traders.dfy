/** The `Traders` enum of the app: each trader has an id such as "prapor" and a
    number. The enum's entries are not part of this model; the modules that use
    them take the list of entries as a parameter. */
module Traders {

  import opened Ints

  datatype Trader = Trader(id: string, number: Int32)
}
