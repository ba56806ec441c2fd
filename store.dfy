/**
 * Store selection: the automatic choice of one of the two configured shops
 * (`select_store` with an `auto_choice`).
 */
module Store {
  import opened Options
  import Text

  datatype StoreKey = Jwl | Jf

  /** One entry of the store table; the token is read at start-up. */
  datatype StoreConfig = StoreConfig(name: string, shopUrl: string, token: string)

  /** The store table, given the two tokens typed in at start-up. */
  function Stores(key: StoreKey, jwlToken: string, jfToken: string): (c: StoreConfig)
    ensures c.token == (if key == Jwl then jwlToken else jfToken)
    ensures c.name == (if key == Jwl then "Japan World Link" else "Japan Toy and Figure")
    ensures c.shopUrl == (if key == Jwl then "japan-world-link.myshopify.com" else "japan-toy-and-figure.myshopify.com")
  {
    match key
    case Jwl => StoreConfig("Japan World Link", "japan-world-link.myshopify.com", jwlToken)
    case Jf => StoreConfig("Japan Toy and Figure", "japan-toy-and-figure.myshopify.com", jfToken)
  }

  /**
   * The store an automatic choice selects, `None` when the choice is not
   * recognised (the script then falls back to the interactive prompt).
   * `choice` is `str(auto_choice)`, so the integers 1 and 2 arrive as "1", "2".
   */
  function AutoSelect(choice: string): (r: Option<StoreKey>)
    ensures r == Some(Jwl) <==> (Text.Lower(choice) == "1" || Text.Lower(choice) == "jwl")
    ensures r == Some(Jf) <==> (Text.Lower(choice) == "2" || Text.Lower(choice) == "jf")
  {
    var c := Text.Lower(choice);
    if c == "1" || c == "jwl" then Some(Jwl)
    else if c == "2" || c == "jf" then Some(Jf)
    else None
  }

  /** The choice is case-insensitive: lower-casing it first changes nothing. */
  lemma AutoSelectIgnoresCase(choice: string)
    ensures AutoSelect(Text.Lower(choice)) == AutoSelect(choice)
  {
    Text.LowerIdempotent(choice);
  }

  /** Every spelling of a store's name, in any case, selects that store. */
  lemma AutoSelectByName(choice: string)
    requires Text.Lower(choice) == "jwl" || Text.Lower(choice) == "jf"
    ensures AutoSelect(choice) == Some(if Text.Lower(choice) == "jwl" then Jwl else Jf)
  {
  }

  /** The entry point passes the integer 2, which selects the JF store. */
  lemma MainSelectsJf(jwlToken: string, jfToken: string)
    ensures AutoSelect("2") == Some(Jf)
    ensures Stores(AutoSelect("2").value, jwlToken, jfToken).shopUrl == "japan-toy-and-figure.myshopify.com"
  {
    assert Text.Lower("2") == "2";
  }
}
