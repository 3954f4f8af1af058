/**
 * The credential store: the `shopify_tokens` table as a map from shop to
 * its row, with the upsert, delete, clear-all and lookup rules of the
 * token manager. Backend errors are a `fault` flag; every operation turns
 * them into `false` or `None` and leaves the table as it was.
 */
module Credentials {
  import opened Wrappers

  /** A row of `shopify_tokens`, keyed by shop. */
  datatype TokenRow = TokenRow(accessToken: string, updatedAt: string)

  /** `getToken` on a table: the stored token, unless the row is missing or the token is empty. */
  function Lookup(table: map<string, TokenRow>, shop: string): (r: Option<string>)
    ensures r.Some? <==> shop in table && table[shop].accessToken != ""
    ensures r.Some? ==> r.value == table[shop].accessToken && r.value != ""
  {
    if shop in table && table[shop].accessToken != "" then Some(table[shop].accessToken) else None
  }

  /** The upsert on conflict `shop`: the shop's row is written, every other row stays. */
  function Upsert(table: map<string, TokenRow>, shop: string, token: string, now: string): (t: map<string, TokenRow>)
    ensures t.Keys == table.Keys + {shop}
    ensures t[shop] == TokenRow(token, now)
    ensures forall s :: s in table && s != shop ==> t[s] == table[s]
  {
    table[shop := TokenRow(token, now)]
  }

  /** `.delete().eq('shop', shop)`. */
  function Remove(table: map<string, TokenRow>, shop: string): (t: map<string, TokenRow>)
    ensures t.Keys == table.Keys - {shop}
    ensures forall s :: s in t ==> t[s] == table[s]
  {
    table - {shop}
  }

  /** `.delete().neq('shop', '')`: every row goes except one keyed by the empty shop. */
  function ClearAll(table: map<string, TokenRow>): (t: map<string, TokenRow>)
    ensures t.Keys == table.Keys * {""}
    ensures "" in table ==> t[""] == table[""]
  {
    map s | s in table && s == "" :: table[s]
  }

  /** A stored non-empty token reads back. */
  lemma StoreThenGet(table: map<string, TokenRow>, shop: string, token: string, now: string)
    requires token != ""
    ensures Lookup(Upsert(table, shop, token, now), shop) == Some(token)
  {
  }

  /** A stored empty token reads back as absent. */
  lemma StoreEmptyReadsAbsent(table: map<string, TokenRow>, shop: string, now: string)
    ensures Lookup(Upsert(table, shop, "", now), shop) == None
  {
  }

  /** Storing for one shop does not change what any other shop reads. */
  lemma StoreLeavesOthers(table: map<string, TokenRow>, shop: string, token: string, now: string, other: string)
    requires other != shop
    ensures Lookup(Upsert(table, shop, token, now), other) == Lookup(table, other)
  {
  }

  /** A second store for the same shop overwrites the first entirely. */
  lemma StoreOverwrites(table: map<string, TokenRow>, shop: string, t1: string, n1: string, t2: string, n2: string)
    ensures Upsert(Upsert(table, shop, t1, n1), shop, t2, n2) == Upsert(table, shop, t2, n2)
  {
  }

  /** A removed shop reads as absent; other shops read as before. */
  lemma RemoveThenGet(table: map<string, TokenRow>, shop: string, other: string)
    ensures Lookup(Remove(table, shop), shop) == None
    ensures other != shop ==> Lookup(Remove(table, shop), other) == Lookup(table, other)
  {
  }

  /** After clearing, every non-empty shop reads as absent and the empty-shop row, if any, is kept. */
  lemma ClearAllThenGet(table: map<string, TokenRow>, shop: string)
    ensures shop != "" ==> Lookup(ClearAll(table), shop) == None
    ensures Lookup(ClearAll(table), "") == Lookup(table, "")
  {
  }

  /** The token manager over the `shopify_tokens` table. */
  class TokenManager {
    var table: map<string, TokenRow>

    constructor (initial: map<string, TokenRow>)
      ensures table == initial
    {
      table := initial;
    }

    /** `getToken`: `None` on a backend error, a missing row or an empty token. */
    function GetToken(shop: string, fault: bool): (r: Option<string>)
      reads this
      ensures fault ==> r == None
      ensures r.Some? <==> !fault && shop in table && table[shop].accessToken != ""
      ensures r.Some? ==> r.value == table[shop].accessToken
    {
      if fault then None else Lookup(table, shop)
    }

    /** `hasToken`: whether `getToken` gives a token. */
    function HasToken(shop: string, fault: bool): (b: bool)
      reads this
      ensures b <==> GetToken(shop, fault).Some?
      ensures b ==> shop in table && table[shop].accessToken != ""
    {
      GetToken(shop, fault).Some?
    }

    /** `storeToken`: an upsert keyed on shop, stamped with `now`. */
    method StoreToken(shop: string, accessToken: string, now: string, fault: bool) returns (ok: bool)
      modifies this
      ensures ok == !fault
      ensures table == if fault then old(table) else Upsert(old(table), shop, accessToken, now)
      ensures ok && accessToken != "" ==> GetToken(shop, false) == Some(accessToken)
    {
      if fault {
        ok := false;
      } else {
        table := Upsert(table, shop, accessToken, now);
        ok := true;
      }
    }

    /** `removeToken`: deletes the shop's row. */
    method RemoveToken(shop: string, fault: bool) returns (ok: bool)
      modifies this
      ensures ok == !fault
      ensures table == if fault then old(table) else Remove(old(table), shop)
      ensures ok ==> GetToken(shop, false) == None
    {
      if fault {
        ok := false;
      } else {
        table := Remove(table, shop);
        ok := true;
      }
    }

    /** `clearAllTokens`: deletes every row whose shop is not the empty string. */
    method ClearAllTokens(fault: bool) returns (ok: bool)
      modifies this
      ensures ok == !fault
      ensures table == if fault then old(table) else ClearAll(old(table))
      ensures ok ==> table.Keys <= {""}
    {
      if fault {
        ok := false;
      } else {
        table := ClearAll(table);
        ok := true;
      }
    }
  }
}
