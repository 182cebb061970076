/**
 * The development API that the Vite plugin mounts (vite-plugin-api.js):
 * which branch of the invoices middleware a request reaches, which key it
 * looks up, the id-assigning de-duplication of seed items, and the item-id
 * check of the items middleware. The database calls go to the shared
 * `InvoiceCollection`.
 */
module ViteApi {
  import opened Wrappers
  import opened Text
  import opened Seqs
  import opened InvoiceNumber
  import opened Records
  import opened DocumentStore

  /** The branch of the invoices middleware a request reaches. */
  datatype Route =
    | PassThrough        // `next()`: another middleware answers
    | Preflight
    | ListAll
    | LastNumberRoute
    | NextNumberRoute
    | Export
    | GetOne(key: string)
    | Create
    | Update(key: string)
    | Delete(key: string)

  const INVOICES_PREFIX: string := "/api/invoices"

  /** `/api/invoices` itself: the non-empty parts are exactly "api" and "invoices". */
  predicate IsBasePath(url: string) {
    PathParts(url) == ["api", "invoices"]
  }

  /**
   * The key of a single-invoice request: the text after the last '/', or,
   * when that is empty, the URL without a leading "/api/invoices/" and then
   * without one leading '/'.
   */
  function InvoiceKey(url: string): (key: string)
    ensures LastPiece(url, '/') != "" ==> key == LastPiece(url, '/') && '/' !in key
    ensures LastPiece(url, '/') == "" ==> key == DropLeadingSlash(StripPrefix(url, INVOICES_PREFIX + "/"))
  {
    var last := LastPiece(url, '/');
    if last != "" then last else DropLeadingSlash(StripPrefix(url, INVOICES_PREFIX + "/"))
  }

  /** The invoices middleware's branch for a request, tested in the order the code tests them. */
  function Classify(verb: HttpMethod, url: string): (route: Route)
    ensures !StartsWith(url, INVOICES_PREFIX) ==> route == PassThrough
    ensures StartsWith(url, INVOICES_PREFIX) ==>
              (route == PassThrough <==> verb == Other) &&
              (verb == OPTIONS <==> route == Preflight) &&
              (verb == POST <==> route == Create) &&
              (verb == PUT <==> route == Update(InvoiceKey(url))) &&
              (verb == DELETE <==> route == Delete(InvoiceKey(url)))
    ensures route == ListAll <==> StartsWith(url, INVOICES_PREFIX) && verb == GET && IsBasePath(url)
    ensures route == LastNumberRoute <==>
              StartsWith(url, INVOICES_PREFIX) && verb == GET && !IsBasePath(url) && Contains(url, "/last-number")
    ensures route == NextNumberRoute <==>
              StartsWith(url, INVOICES_PREFIX) && verb == GET && !IsBasePath(url) &&
              !Contains(url, "/last-number") && Contains(url, "/next-number")
    ensures route == Export <==>
              StartsWith(url, INVOICES_PREFIX) && verb == GET && !IsBasePath(url) &&
              !Contains(url, "/last-number") && !Contains(url, "/next-number") && Contains(url, "/export/json")
    ensures route.GetOne? <==>
              StartsWith(url, INVOICES_PREFIX) && verb == GET && !IsBasePath(url) &&
              !Contains(url, "/last-number") && !Contains(url, "/next-number") && !Contains(url, "/export/json")
    ensures route.GetOne? ==> route.key == InvoiceKey(url)
  {
    if !StartsWith(url, INVOICES_PREFIX) then PassThrough
    else match verb
      case OPTIONS => Preflight
      case GET =>
        if IsBasePath(url) then ListAll
        else if Contains(url, "/last-number") then LastNumberRoute
        else if Contains(url, "/next-number") then NextNumberRoute
        else if Contains(url, "/export/json") then Export
        else GetOne(InvoiceKey(url))
      case POST => Create
      case PUT => Update(InvoiceKey(url))
      case DELETE => Delete(InvoiceKey(url))
      case Other => PassThrough
  }

  /** A single-invoice URL `/api/invoices/<key>` looks up exactly `<key>`. */
  lemma {:induction false} KeyOfInvoiceUrl(key: string)
    requires key != "" && '/' !in key
    ensures InvoiceKey(INVOICES_PREFIX + "/" + key) == key
  {
    var url := INVOICES_PREFIX + "/" + key;
    var r := LastPiece(url, '/');
    assert url[|url| - |key| - 1] == '/';
    assert url[|url| - |key|..] == key;
  }

  /** With a trailing slash the key keeps the slash, so the lookup of `<key>/` misses `<key>`. */
  lemma {:induction false} KeyWithTrailingSlash(key: string)
    requires key != "" && '/' !in key
    ensures InvoiceKey(INVOICES_PREFIX + "/" + key + "/") == key + "/"
  {
    var prefix := INVOICES_PREFIX + "/";
    var url := prefix + (key + "/");
    assert INVOICES_PREFIX + "/" + key + "/" == url;
    assert url[|url| - 1] == '/';
    assert url[..|prefix|] == prefix;
    assert StripPrefix(url, prefix) == key + "/";
    assert (key + "/")[0] == key[0] && key[0] != '/' by { assert key[0] in key; }
  }

  /** The fixed path parts the middlewares test for hold no separator. */
  lemma {:induction false} FixedPartsHaveNoSlash()
    ensures '/' !in "api" && '/' !in "invoices" && '/' !in "items" && '/' !in "last-number"
  {
  }

  /** `/api/invoices` lists every invoice. */
  lemma {:induction false} BasePathLists()
    ensures Classify(GET, INVOICES_PREFIX) == ListAll
  {
    BaseUrlIsBasePath();
  }

  lemma {:induction false} BaseUrlIsBasePath()
    ensures StartsWith(INVOICES_PREFIX, INVOICES_PREFIX) && IsBasePath(INVOICES_PREFIX)
  {
    assert INVOICES_PREFIX == "/" + "api" + "/" + "invoices";
    FixedPartsHaveNoSlash();
    PathPartsOfTwoOnly("api", "invoices");
  }

  /** So does `/api/invoices/`: the empty part after the slash is dropped. */
  lemma {:induction false} BasePathSlashLists()
    ensures Classify(GET, INVOICES_PREFIX + "/") == ListAll
  {
    assert INVOICES_PREFIX + "/" == "/" + "api" + "/" + "invoices" + "/" + "";
    FixedPartsHaveNoSlash();
    PathPartsOfTwo("api", "invoices", "");
    PathPartsSingle("");
    assert (INVOICES_PREFIX + "/")[..|INVOICES_PREFIX|] == INVOICES_PREFIX;
  }

  /**
   * The counter URL reaches the last-number branch on GET; any POST under
   * the prefix, even to that URL, is a create.
   */
  lemma {:induction false} LastNumberUrl()
    ensures Classify(GET, INVOICES_PREFIX + "/last-number") == LastNumberRoute
    ensures Classify(POST, INVOICES_PREFIX + "/last-number") == Create
  {
    var u := INVOICES_PREFIX + "/last-number";
    assert u[..|INVOICES_PREFIX|] == INVOICES_PREFIX;
    assert u == "/" + "api" + "/" + "invoices" + "/" + "last-number";
    FixedPartsHaveNoSlash();
    PathPartsOfTwo("api", "invoices", "last-number");
    PathPartsSingle("last-number");
    ContainsSuffix(INVOICES_PREFIX, "/last-number");
  }

  // ---------------------------------------------------------------------
  // Seed items

  /** The id a seed item at `index` receives: its own when truthy, else index + 1. */
  function SeedId(item: Item, index: nat): int {
    if item.id != 0 then item.id else index + 1
  }

  /** Every seed item with the id it is given, before duplicates are dropped. */
  function WithSeedIds(items: seq<Item>, offset: nat): (r: seq<Item>)
    ensures |r| == |items|
    ensures forall k | 0 <= k < |items| :: r[k] == items[k].(id := SeedId(items[k], offset + k))
  {
    seq(|items|, k requires 0 <= k < |items| => items[k].(id := SeedId(items[k], offset + k)))
  }

  /**
   * The seed mapping from position `offset` on, given the ids already
   * `seen`: an item whose id was seen is dropped, the others are kept with
   * their id.
   */
  function AssignIds(items: seq<Item>, offset: nat, seen: set<int>): (r: seq<Item>)
    ensures |r| <= |items|
    decreases |items|
  {
    if items == [] then []
    else
      var id := SeedId(items[0], offset);
      if id in seen then AssignIds(items[1..], offset + 1, seen)
      else [items[0].(id := id)] + AssignIds(items[1..], offset + 1, seen + {id})
  }

  /** One step of the mapping, taken at `index` of the whole list. */
  lemma {:induction false} AssignIdsAt(items: seq<Item>, index: nat, seen: set<int>)
    requires index < |items|
    ensures var id := SeedId(items[index], index);
            AssignIds(items[index..], index, seen) ==
              if id in seen then AssignIds(items[index + 1..], index + 1, seen)
              else [items[index].(id := id)] + AssignIds(items[index + 1..], index + 1, seen + {id})
  {
    assert items[index..][0] == items[index] && items[index..][1..] == items[index + 1..];
  }

  /** The whole seed mapping: ids assigned from index 0, nothing seen yet. */
  function SeedItems(items: seq<Item>): (r: seq<Item>)
    ensures |r| <= |items|
  {
    AssignIds(items, 0, {})
  }

  predicate DistinctIds(items: seq<Item>) {
    forall i, j | 0 <= i < j < |items| :: items[i].id != items[j].id
  }

  /** The first item (from `offset` on) to be given each id. */
  predicate FirstWithId(w: seq<Item>, k: nat)
    requires k < |w|
  {
    forall j | 0 <= j < k :: w[j].id != w[k].id
  }

  /**
   * The seed mapping keeps the order of the input, never repeats an id or
   * uses one already seen, keeps the first item given each unseen id, and
   * loses no id.
   */
  lemma {:induction false} AssignIdsSpec(items: seq<Item>, offset: nat, seen: set<int>)
    ensures var r := AssignIds(items, offset, seen);
            var w := WithSeedIds(items, offset);
            Subsequence(r, w) &&
            DistinctIds(r) &&
            (forall x | x in r :: x.id !in seen) &&
            (forall k | 0 <= k < |w| && w[k].id !in seen && FirstWithId(w, k) :: w[k] in r) &&
            (forall k | 0 <= k < |w| && w[k].id !in seen :: exists x | x in r :: x.id == w[k].id)
    decreases |items|
  {
    var r := AssignIds(items, offset, seen);
    var w := WithSeedIds(items, offset);
    if items != [] {
      var id := SeedId(items[0], offset);
      var w' := WithSeedIds(items[1..], offset + 1);
      assert w' == w[1..];
      if id in seen {
        AssignIdsSpec(items[1..], offset + 1, seen);
        assert r == AssignIds(items[1..], offset + 1, seen);
        SubsequenceCons(r, w);
        forall k | 0 <= k < |w| && w[k].id !in seen && FirstWithId(w, k) ensures w[k] in r {
          assert k > 0;
          assert w[k] == w'[k - 1];
        }
        forall k | 0 <= k < |w| && w[k].id !in seen ensures exists x | x in r :: x.id == w[k].id {
          assert k > 0;
          assert w[k] == w'[k - 1];
        }
      } else {
        var seen' := seen + {id};
        var rest := AssignIds(items[1..], offset + 1, seen');
        AssignIdsSpec(items[1..], offset + 1, seen');
        assert r == [w[0]] + rest;
        assert r[1..] == rest;
        forall i, j | 0 <= i < j < |r| ensures r[i].id != r[j].id {
          if i == 0 {
            assert r[j] in rest;
          } else {
            assert r[i] == rest[i - 1] && r[j] == rest[j - 1];
          }
        }
        forall x | x in r ensures x.id !in seen {
          if x != w[0] { assert x in rest; }
        }
        forall k | 0 <= k < |w| && w[k].id !in seen && FirstWithId(w, k) ensures w[k] in r {
          if k > 0 {
            assert w[k] == w'[k - 1];
            assert w[k].id != w[0].id;
            forall j | 0 <= j < k - 1 ensures w'[j].id != w'[k - 1].id {
              assert w'[j] == w[j + 1];
            }
            assert FirstWithId(w', k - 1);
          }
        }
        forall k | 0 <= k < |w| && w[k].id !in seen ensures exists x | x in r :: x.id == w[k].id {
          if k > 0 && w[k].id != id {
            assert w[k] == w'[k - 1];
            var x :| x in rest && x.id == w[k].id;
            assert x in r;
          } else {
            assert w[0] in r;
          }
        }
      }
    }
  }

  /** The seed mapping's contract: ordered, duplicate-free, no id lost, first item per id kept. */
  lemma {:induction false} SeedItemsSpec(items: seq<Item>)
    ensures Subsequence(SeedItems(items), WithSeedIds(items, 0))
    ensures DistinctIds(SeedItems(items))
    ensures |SeedItems(items)| <= |items|
    ensures forall k | 0 <= k < |items| && FirstWithId(WithSeedIds(items, 0), k) ::
              WithSeedIds(items, 0)[k] in SeedItems(items)
    ensures forall k | 0 <= k < |items| :: exists x | x in SeedItems(items) :: x.id == SeedId(items[k], k)
  {
    AssignIdsSpec(items, 0, {});
    SubsequenceLength(SeedItems(items), WithSeedIds(items, 0));
  }

  lemma {:induction false} SubsequenceLength<T>(r: seq<T>, s: seq<T>)
    requires Subsequence(r, s)
    ensures |r| <= |s|
    decreases |s|
  {
    if r != [] {
      if r[0] == s[0] {
        SubsequenceLength(r[1..], s[1..]);
      } else {
        SubsequenceLength(r, s[1..]);
      }
    }
  }

  /**
   * The seed mapping as the code runs it: one pass, a set of ids seen so
   * far, items whose id was already seen skipped.
   */
  method LoadSeedItems(items: seq<Item>) returns (loaded: seq<Item>)
    ensures loaded == SeedItems(items)
    ensures DistinctIds(loaded) && |loaded| <= |items|
  {
    var seenIds: set<int> := {};
    loaded := [];
    var index := 0;
    assert items[index..] == items;
    while index < |items|
      invariant 0 <= index <= |items|
      invariant loaded + AssignIds(items[index..], index, seenIds) == SeedItems(items)
    {
      var id := SeedId(items[index], index);
      AssignIdsAt(items, index, seenIds);
      if id !in seenIds {
        var item := items[index].(id := id);
        ghost var rest := AssignIds(items[index + 1..], index + 1, seenIds + {id});
        assert (loaded + [item]) + rest == loaded + ([item] + rest);
        seenIds := seenIds + {id};
        loaded := loaded + [item];
      }
      index := index + 1;
    }
    assert items[index..] == [];
    SeedItemsBounded(items);
  }

  lemma {:induction false} SeedItemsBounded(items: seq<Item>)
    ensures DistinctIds(SeedItems(items)) && |SeedItems(items)| <= |items|
  {
    SeedItemsSpec(items);
  }

  // ---------------------------------------------------------------------
  // Item ids

  predicate IsHexDigit(c: char) {
    IsDigit(c) || 'a' <= c <= 'f' || 'A' <= c <= 'F'
  }

  function HexDigitValue(c: char): (d: nat)
    requires IsHexDigit(c)
    ensures d < 16
  {
    if IsDigit(c) then DigitValue(c)
    else if 'a' <= c <= 'f' then c as int - 'a' as int + 10
    else c as int - 'A' as int + 10
  }

  /** Length of the longest prefix made of hexadecimal digits. */
  function HexRunLength(s: string): (n: nat)
    ensures n <= |s|
    ensures forall k | 0 <= k < n :: IsHexDigit(s[k])
    ensures n < |s| ==> !IsHexDigit(s[n])
    decreases |s|
  {
    if s == [] || !IsHexDigit(s[0]) then 0 else 1 + HexRunLength(s[1..])
  }

  function HexValue(digits: string): nat
    requires forall k | 0 <= k < |digits| :: IsHexDigit(digits[k])
    decreases |digits|
  {
    if digits == [] then 0
    else HexValue(digits[..|digits| - 1]) * 16 + HexDigitValue(digits[|digits| - 1])
  }

  /**
   * `parseInt(s)` with no radix, `None` for NaN: leading white space is
   * skipped, one sign is read, a "0x" or "0X" prefix selects base 16, and the
   * longest run of digits that follows is read; anything after it is
   * ignored.
   */
  function ParseInt(s: string): (n: Option<int>)
    ensures HasNoDigit(s) ==> n.None?
  {
    var t := TrimStart(s);
    var negative := t != [] && t[0] == '-';
    var body := if t != [] && (t[0] == '-' || t[0] == '+') then t[1..] else t;
    var magnitude :=
      if |body| >= 2 && body[0] == '0' && (body[1] == 'x' || body[1] == 'X') then
        var h := HexRunLength(body[2..]);
        if h == 0 then None else Some(HexValue(body[2..][..h]))
      else
        var d := DigitRunLength(body);
        if d == 0 then None else Some(DigitsValue(body[..d]));
    assert magnitude.Some? ==> !HasNoDigit(s) by {
      if magnitude.Some? {
        var k := |s| - |t| + (if body == t then 0 else 1);
        assert s[k..] == body;
        assert body[0] == s[k];
        assert IsDigit(body[0]);
      }
    }
    match magnitude
    case None => None
    case Some(m) => Some(if negative then -(m as int) else m as int)
  }

  /**
   * The id of an item PUT or DELETE: the third non-empty part of the URL,
   * read by `parseInt`. `None` for a missing part, NaN or 0: the request is
   * answered 400 before the store is touched.
   */
  function ItemId(url: string): (id: Option<int>)
    ensures id.Some? ==> id.value != 0
    ensures |PathParts(url)| < 3 ==> id.None?
    ensures |PathParts(url)| >= 3 ==> id == Truthy(ParseInt(PathParts(url)[2]))
  {
    var parts := PathParts(url);
    if |parts| < 3 then None else Truthy(ParseInt(parts[2]))
  }

  /** `!n || isNaN(n)` rejects the number: only a present, non-zero number passes. */
  function Truthy(n: Option<int>): (r: Option<int>)
    ensures r.Some? <==> n.Some? && n.value != 0
    ensures r.Some? ==> r == n
  {
    if n.Some? && n.value != 0 then n else None
  }

  /**
   * A part that starts with decimal digits (and is not a "0x" prefix) reads
   * as those digits, whatever follows them.
   */
  lemma {:induction false} ParseIntDecimal(digits: string, rest: string)
    requires digits != [] && AllDigits(digits) && (rest == [] || !IsDigit(rest[0]))
    requires !(digits == "0" && rest != [] && (rest[0] == 'x' || rest[0] == 'X'))
    ensures ParseInt(digits + rest) == Some(DigitsValue(digits) as int)
  {
    var s := digits + rest;
    assert s[0] == digits[0] && IsDigit(s[0]);
    assert s[..|digits|] == digits;
    DigitRunLengthIs(s, |digits|);
    if |s| >= 2 && s[0] == '0' {
      if |digits| >= 2 {
        assert s[1] == digits[1] && IsDigit(s[1]);
      } else {
        assert s[1] == rest[0];
      }
    }
    ParseIntLeadingDigits(s);
  }

  /** Text that starts with a digit, and not with "0x", reads as its leading digit run. */
  lemma {:induction false} ParseIntLeadingDigits(s: string)
    requires s != [] && IsDigit(s[0])
    requires !(|s| >= 2 && s[0] == '0' && (s[1] == 'x' || s[1] == 'X'))
    ensures ParseInt(s) == Some(DigitsValue(s[..DigitRunLength(s)]) as int)
  {
    assert !IsSpace(s[0]);
    assert TrimStart(s) == s;
    assert DigitRunLength(s) != 0;
  }

  /** `/api/items/<part>` carries `<part>` as its third part. */
  lemma {:induction false} ItemUrlId(part: string)
    requires part != "" && '/' !in part
    ensures ItemId("/api/items/" + part) == Truthy(ParseInt(part))
  {
    assert "/api/items/" + part == "/" + "api" + "/" + "items" + "/" + part;
    FixedPartsHaveNoSlash();
    PathPartsOfTwo("api", "items", part);
    PathPartsSingle(part);
  }

  /** "12abc" reads as 12: `parseInt` stops at the first non-digit. */
  lemma {:induction false} ParseIntTrailingText()
    ensures ParseInt("12abc") == Some(12)
  {
    assert DigitsValue("12") == 12 by { assert "12"[..1] == "1" && "1"[..0] == []; }
    assert "12abc" == "12" + "abc";
    ParseIntDecimal("12", "abc");
  }

  /** An item URL whose id part is "0" or has no digit is rejected. */
  lemma {:induction false} ItemIdRejected(part: string)
    requires part != "" && '/' !in part
    requires HasNoDigit(part) || part == "0"
    ensures ItemId("/api/items/" + part) == None
  {
    ItemUrlId(part);
    if part == "0" {
      assert DigitsValue(part) == 0 by { assert part[..0] == []; }
      assert part == part + "";
      ParseIntDecimal(part, "");
    }
  }

  // ---------------------------------------------------------------------
  // The invoices middleware

  /** The branches that only read: they always answer 200 and change nothing. */
  predicate ReadOnly(route: Route) {
    route.Preflight? || route.ListAll? || route.LastNumberRoute? || route.NextNumberRoute? || route.Export?
  }

  /**
   * One request to the invoices middleware. `handled` is false when the
   * request is passed on with `next()`. `number` is the value the counter
   * branches answer with (`lastNumber` or `nextNumber`), 0 on the other
   * branches. The store calls behave as the shared `InvoiceCollection`
   * rules say; `writeOk` is whether the database accepts the write a POST,
   * PUT or DELETE makes, and `upsertOk` whether it accepts the counter
   * upsert after a POST.
   */
  method HandleInvoices(store: InvoiceCollection, verb: HttpMethod, url: string,
                        body: Invoice, now: string, writeOk: bool, upsertOk: bool)
    returns (handled: bool, status: nat, number: nat)
    requires store.Valid()
    modifies store
    ensures store.Valid()
    ensures handled <==> Classify(verb, url) != PassThrough
    ensures ReadOnly(Classify(verb, url)) ==> status == OK
    ensures Classify(verb, url).LastNumberRoute? ==> number == LastNumber(store.counterDoc)
    ensures Classify(verb, url).NextNumberRoute? ==> number == LastNumber(store.counterDoc) + 1
    ensures !(Classify(verb, url).LastNumberRoute? || Classify(verb, url).NextNumberRoute?) ==> number == 0
    ensures Classify(verb, url).GetOne? ==>
              (status == OK <==> HasInvoice(store.invoices, Classify(verb, url).key)) &&
              (status != OK ==> status == NOT_FOUND)
    ensures !(Classify(verb, url).Create? || Classify(verb, url).Update? || Classify(verb, url).Delete?) ==>
              store.invoices == old(store.invoices) && store.counterDoc == old(store.counterDoc)
    ensures Classify(verb, url).Create? ==>
              CreateOutcome(old(store.invoices), old(store.counterDoc), store.invoices, store.counterDoc,
                            body, now, writeOk, upsertOk, status)
    ensures Classify(verb, url).Update? ==>
              UpdateOutcome(old(store.invoices), old(store.counterDoc), store.invoices, store.counterDoc,
                            Classify(verb, url).key, body, now, writeOk, status)
    ensures Classify(verb, url).Delete? ==>
              DeleteOutcome(old(store.invoices), old(store.counterDoc), store.invoices, store.counterDoc,
                            Classify(verb, url).key, writeOk, status)
  {
    var route := Classify(verb, url);
    handled, status, number := true, OK, 0;
    match route {
      case PassThrough =>
        handled := false;
      case Preflight =>
      case ListAll =>
      case LastNumberRoute =>
        number := store.ReadLastNumber();
      case NextNumberRoute =>
        number := store.ReadNextNumber();
      case Export =>
      case GetOne(key) =>
        var found := store.FindOne(key);
        if found.None? {
          status := NOT_FOUND;
        }
      case Create =>
        status := store.CreateInvoice(body, now, writeOk, upsertOk);
      case Update(key) =>
        status := store.UpdateInvoice(key, body, now, writeOk);
      case Delete(key) =>
        status := store.DeleteInvoice(key, writeOk);
    }
  }
}
