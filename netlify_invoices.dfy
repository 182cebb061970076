/**
 * The Netlify function for invoices (netlify/functions/invoices.js): the
 * event path, stripped but not split, selects the branch by exact equality.
 */
module NetlifyInvoices {
  import opened Wrappers
  import opened Text
  import opened InvoiceNumber
  import opened Records
  import opened DocumentStore
  import VercelInvoices

  const INVOICES_PREFIX: string := "/api/invoices"

  /** The branch of the function a request reaches. */
  datatype Route =
    | Preflight
    | ListAll
    | LastNumberRoute
    | NextNumberRoute
    | Export
    | GetOne(key: string)
    | Create
    | Update(key: string)
    | Delete(key: string)
    | NotAllowed

  /** The event path with the first "/api/invoices" and then one leading '/' removed. */
  function Path(eventPath: string): (path: string)
    ensures StartsWith(eventPath, INVOICES_PREFIX) ==> path == DropLeadingSlash(eventPath[|INVOICES_PREFIX|..])
    ensures !Contains(eventPath, INVOICES_PREFIX) ==> path == DropLeadingSlash(eventPath)
    ensures |path| <= |eventPath|
  {
    DropLeadingSlash(RemoveFirst(eventPath, INVOICES_PREFIX))
  }

  /**
   * The prefix is removed wherever it first occurs, not only at the start:
   * the text before it and the text after it are joined.
   */
  lemma {:induction false} PathRemovesFirstOccurrence(pre: string, post: string)
    requires forall i | 0 <= i < |pre| :: !OccursAt(pre + INVOICES_PREFIX + post, INVOICES_PREFIX, i)
    ensures Path(pre + INVOICES_PREFIX + post) == DropLeadingSlash(pre + post)
  {
    RemoveFirstAt(pre, INVOICES_PREFIX, post);
  }

  /** The branch for a request, tested in the order the function tests them. */
  function Classify(verb: HttpMethod, eventPath: string): (route: Route)
    ensures route == NotAllowed <==> verb == Other
    ensures route == Preflight <==> verb == OPTIONS
    ensures route == Create <==> verb == POST
    ensures verb == PUT <==> route == Update(Path(eventPath))
    ensures verb == DELETE <==> route == Delete(Path(eventPath))
    ensures route == ListAll <==> verb == GET && Path(eventPath) == ""
    ensures route == LastNumberRoute <==> verb == GET && Path(eventPath) == "last-number"
    ensures route == NextNumberRoute <==> verb == GET && Path(eventPath) == "next-number"
    ensures route == Export <==> verb == GET && Path(eventPath) == "export/json"
    ensures route.GetOne? <==>
              verb == GET && Path(eventPath) !in {"", "last-number", "next-number", "export/json"}
    ensures route.GetOne? ==> route.key == Path(eventPath)
  {
    var path := Path(eventPath);
    match verb
    case OPTIONS => Preflight
    case GET =>
      if path == "" then ListAll
      else if path == "last-number" then LastNumberRoute
      else if path == "next-number" then NextNumberRoute
      else if path == "export/json" then Export
      else GetOne(path)
    case POST => Create
    case PUT => Update(path)
    case DELETE => Delete(path)
    case Other => NotAllowed
  }

  /** `/api/invoices/<rest>` looks up `<rest>` exactly as written, slashes included. */
  lemma {:induction false} PathOfInvoiceUrl(rest: string)
    ensures Path(INVOICES_PREFIX + "/" + rest) == rest
  {
    assert INVOICES_PREFIX + "/" + rest == INVOICES_PREFIX + ("/" + rest);
    RemoveFirstPrefix(INVOICES_PREFIX, "/" + rest);
  }

  /**
   * The two serverless functions disagree on a trailing slash: the Vercel
   * function drops the empty last part, the Netlify function keeps the
   * slash in the key it looks up.
   */
  lemma {:induction false} TrailingSlashDisagreement(key: string)
    requires key != "" && '/' !in key
    ensures VercelInvoices.Segments(INVOICES_PREFIX + "/" + key + "/") == [key]
    ensures Path(INVOICES_PREFIX + "/" + key + "/") == key + "/"
  {
    VercelInvoices.SegmentsOfInvoiceUrlSlash(key);
    assert INVOICES_PREFIX + "/" + key + "/" == INVOICES_PREFIX + "/" + (key + "/");
    PathOfInvoiceUrl(key + "/");
  }

  /**
   * So for `/api/invoices/last-number/` the Vercel function reads the
   * counter while the Netlify function looks up an invoice named
   * "last-number/".
   */
  lemma {:induction false} CounterUrlWithSlash()
    ensures VercelInvoices.Classify(GET, INVOICES_PREFIX + "/last-number/") == VercelInvoices.LastNumberRoute
    ensures Classify(GET, INVOICES_PREFIX + "/last-number/") == GetOne("last-number/")
  {
    var key := "last-number";
    assert INVOICES_PREFIX + "/" + key + "/" == INVOICES_PREFIX + "/last-number/";
    TrailingSlashDisagreement(key);
    assert key + "/" != "last-number" by { assert |key + "/"| != |"last-number"|; }
  }

  /** The branches that only read: they always answer 200 and change nothing. */
  predicate ReadOnly(route: Route) {
    route.Preflight? || route.ListAll? || route.LastNumberRoute? || route.NextNumberRoute? || route.Export?
  }

  /**
   * One request. `number` is the value the counter branches answer with
   * (`lastNumber` or `nextNumber`), 0 on the other branches. `writeOk` is
   * whether the database accepts the write a POST, PUT or DELETE makes,
   * `upsertOk` whether it accepts the counter upsert.
   */
  method Handle(store: InvoiceCollection, verb: HttpMethod, eventPath: string,
                body: Invoice, now: string, writeOk: bool, upsertOk: bool)
    returns (status: nat, number: nat)
    requires store.Valid()
    modifies store
    ensures store.Valid()
    ensures status == METHOD_NOT_ALLOWED <==> verb == Other
    ensures ReadOnly(Classify(verb, eventPath)) ==> status == OK
    ensures Classify(verb, eventPath).LastNumberRoute? ==> number == LastNumber(store.counterDoc)
    ensures Classify(verb, eventPath).NextNumberRoute? ==> number == LastNumber(store.counterDoc) + 1
    ensures !(Classify(verb, eventPath).LastNumberRoute? || Classify(verb, eventPath).NextNumberRoute?) ==> number == 0
    ensures Classify(verb, eventPath).GetOne? ==>
              (status == OK <==> HasInvoice(store.invoices, Path(eventPath))) &&
              (status != OK ==> status == NOT_FOUND)
    ensures !(verb in {POST, PUT, DELETE}) ==>
              store.invoices == old(store.invoices) && store.counterDoc == old(store.counterDoc)
    ensures verb == POST ==>
              CreateOutcome(old(store.invoices), old(store.counterDoc), store.invoices, store.counterDoc,
                            body, now, writeOk, upsertOk, status)
    ensures verb == PUT ==>
              UpdateOutcome(old(store.invoices), old(store.counterDoc), store.invoices, store.counterDoc,
                            Path(eventPath), body, now, writeOk, status)
    ensures verb == DELETE ==>
              DeleteOutcome(old(store.invoices), old(store.counterDoc), store.invoices, store.counterDoc,
                            Path(eventPath), writeOk, status)
  {
    var route := Classify(verb, eventPath);
    status, number := OK, 0;
    match route {
      case Preflight =>
      case ListAll =>
      case LastNumberRoute =>
        number := store.ReadLastNumber();
      case NextNumberRoute =>
        number := store.ReadNextNumber();
      case Export =>
      case GetOne(key) =>
        var found := store.FindOne(key);
        if found.None? {
          status := NOT_FOUND;
        }
      case Create =>
        status := store.CreateInvoice(body, now, writeOk, upsertOk);
      case Update(key) =>
        status := store.UpdateInvoice(key, body, now, writeOk);
      case Delete(key) =>
        status := store.DeleteInvoice(key, writeOk);
      case NotAllowed =>
        status := METHOD_NOT_ALLOWED;
    }
  }
}
