/**
 * The browser's object-URL table, as seen by the component:
 * `URL.createObjectURL` mints a new URL that stays live until
 * `URL.revokeObjectURL` is called on it.
 */
module ObjectUrls {

  import opened Wrappers

  /** An object URL ("blob:..."), identified by the order in which it was minted. */
  type Url = nat

  /** The URLs currently live, and how many URLs have been minted so far. */
  datatype UrlTable = UrlTable(live: set<Url>, minted: nat)
  {
    /** Every live URL was minted earlier. */
    ghost predicate Valid() {
      forall u :: u in live ==> u < minted
    }
  }

  /** The result of `URL.createObjectURL`: the new table and the new URL. */
  datatype Created = Created(table: UrlTable, url: Url)

  /** Mints a URL that was never handed out before and makes it live. */
  function Create(t: UrlTable): (c: Created)
    requires t.Valid()
    ensures c.table.Valid()
    ensures c.url !in t.live
    ensures c.table.live == t.live + {c.url}
    ensures forall u :: u in t.live ==> u < c.url
    ensures c.url == t.minted && c.table.minted == t.minted + 1
  {
    Created(UrlTable(t.live + {t.minted}, t.minted + 1), t.minted)
  }

  /** `URL.revokeObjectURL`: the URL stops being live; revoking a URL that is not live changes nothing. */
  function Revoke(t: UrlTable, u: Url): (r: UrlTable)
    requires t.Valid()
    ensures r.Valid()
    ensures r.live == t.live - {u}
    ensures r.minted == t.minted
    ensures u !in t.live ==> r == t
  {
    t.(live := t.live - {u})
  }

  /** `if (url) URL.revokeObjectURL(url)`: revokes a URL held in a nullable field. */
  function RevokeIfSet(t: UrlTable, u: Option<Url>): (r: UrlTable)
    requires t.Valid()
    ensures r.Valid() && r.minted == t.minted
    ensures r.live == if u.Some? then t.live - {u.value} else t.live
  {
    if u.Some? then Revoke(t, u.value) else t
  }

  /** Two URLs minted one after the other are distinct, and neither was live before. */
  lemma CreateTwiceDistinct(t: UrlTable)
    requires t.Valid()
    ensures var c1 := Create(t); var c2 := Create(c1.table);
            c1.url != c2.url && c1.url !in t.live && c2.url !in t.live &&
            c2.table.live == t.live + {c1.url, c2.url}
  {
  }

  /** Revoking is idempotent: a second revocation of the same URL changes nothing. */
  lemma RevokeIdempotent(t: UrlTable, u: Url)
    requires t.Valid()
    ensures Revoke(Revoke(t, u), u) == Revoke(t, u)
  {
  }
}
