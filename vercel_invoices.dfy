/**
 * The Vercel serverless function for invoices (api/invoices.js): how the
 * request path becomes segments, which branch the segments select, and the
 * store calls each branch makes on the shared `InvoiceCollection`.
 */
module VercelInvoices {
  import opened Wrappers
  import opened Text
  import opened InvoiceNumber
  import opened Records
  import opened DocumentStore

  const INVOICES_PREFIX: string := "/api/invoices"

  /** The branch of the function a request reaches. */
  datatype Route =
    | Preflight
    | ListAll
    | LastNumberRoute
    | NextNumberRoute
    | Export
    | GetOne(key: string)
    | Create
    | Update(target: Option<string>)
    | Delete(target: Option<string>)
    | NotAllowed

  /** The request path; a request without one is treated as `/api/invoices`. */
  function RequestPath(url: string): (path: string)
    ensures path != ""
  {
    if url == "" then INVOICES_PREFIX else url
  }

  /**
   * The first "/api/invoices" removed, then one leading '/', then the
   * non-empty '/'-separated parts.
   */
  function Segments(path: string): (segments: seq<string>)
    ensures forall p | p in segments :: p != "" && '/' !in p
  {
    PathParts(DropLeadingSlash(RemoveFirst(path, INVOICES_PREFIX)))
  }

  /** `pathSegments[0]`: `None` when there is no segment. */
  function FirstSegment(segments: seq<string>): (key: Option<string>)
    ensures key.None? <==> segments == []
    ensures key.Some? ==> key.value == segments[0] && key.value != ""
    requires forall p | p in segments :: p != ""
  {
    if segments == [] then None
    else
      assert segments[0] in segments;
      Some(segments[0])
  }

  predicate IsExport(segments: seq<string>) {
    |segments| >= 2 && segments[0] == "export" && segments[1] == "json"
  }

  /** The branch for a request, tested in the order the function tests them. */
  function Classify(verb: HttpMethod, url: string): (route: Route)
    ensures route == NotAllowed <==> verb == Other
    ensures route == Preflight <==> verb == OPTIONS
    ensures route == Create <==> verb == POST
    ensures verb == PUT <==> route == Update(FirstSegment(Segments(RequestPath(url))))
    ensures verb == DELETE <==> route == Delete(FirstSegment(Segments(RequestPath(url))))
    ensures route == ListAll <==> verb == GET && Segments(RequestPath(url)) == []
    ensures route.LastNumberRoute? <==> verb == GET && FirstSegment(Segments(RequestPath(url))) == Some("last-number")
    ensures route.NextNumberRoute? <==> verb == GET && FirstSegment(Segments(RequestPath(url))) == Some("next-number")
    ensures route.Export? <==> verb == GET && IsExport(Segments(RequestPath(url)))
    ensures route.GetOne? ==> verb == GET && Some(route.key) == FirstSegment(Segments(RequestPath(url)))
    ensures route.GetOne? <==>
              verb == GET && FirstSegment(Segments(RequestPath(url))).Some? &&
              FirstSegment(Segments(RequestPath(url))).value !in {"last-number", "next-number"} &&
              !IsExport(Segments(RequestPath(url)))
  {
    var segments := Segments(RequestPath(url));
    var key := FirstSegment(segments);
    match verb
    case OPTIONS => Preflight
    case GET =>
      if key.None? then ListAll
      else if key.value == "last-number" then LastNumberRoute
      else if key.value == "next-number" then NextNumberRoute
      else if IsExport(segments) then Export
      else GetOne(key.value)
    case POST => Create
    case PUT => Update(key)
    case DELETE => Delete(key)
    case Other => NotAllowed
  }

  /** `/api/invoices/<key>` has the single segment `<key>`. */
  lemma {:induction false} SegmentsOfInvoiceUrl(key: string)
    requires key != "" && '/' !in key
    ensures Segments(INVOICES_PREFIX + "/" + key) == [key]
  {
    assert INVOICES_PREFIX + "/" + key == INVOICES_PREFIX + ("/" + key);
    RemoveFirstPrefix(INVOICES_PREFIX, "/" + key);
    assert DropLeadingSlash("/" + key) == key;
    PathPartsSingle(key);
  }

  /** A trailing slash adds only an empty part, which is dropped. */
  lemma {:induction false} SegmentsOfInvoiceUrlSlash(key: string)
    requires key != "" && '/' !in key
    ensures Segments(INVOICES_PREFIX + "/" + key + "/") == [key]
  {
    assert INVOICES_PREFIX + "/" + key + "/" == INVOICES_PREFIX + ("/" + key + "/");
    RemoveFirstPrefix(INVOICES_PREFIX, "/" + key + "/");
    assert DropLeadingSlash("/" + key + "/") == key + "/" + "";
    PathPartsAfter(key, "");
    PathPartsSingle("");
  }

  /** A GET of `/api/invoices/<key>` looks up `<key>` unless it names a counter branch. */
  lemma {:induction false} GetInvoiceUrl(key: string)
    requires key != "" && '/' !in key && key != "last-number" && key != "next-number"
    ensures Classify(GET, INVOICES_PREFIX + "/" + key) == GetOne(key)
    ensures Classify(GET, INVOICES_PREFIX + "/" + key + "/") == GetOne(key)
  {
    SegmentsOfInvoiceUrl(key);
    SegmentsOfInvoiceUrlSlash(key);
  }

  /** The branches that only read: they always answer 200 and change nothing. */
  predicate ReadOnly(route: Route) {
    route.Preflight? || route.ListAll? || route.LastNumberRoute? || route.NextNumberRoute? || route.Export?
  }

  /**
   * One request. `number` is the value the counter branches answer with
   * (`lastNumber` or `nextNumber`), 0 on the other branches. `writeOk` is
   * whether the database accepts the write a POST, PUT or DELETE makes,
   * `upsertOk` whether it accepts the counter upsert. A PUT or DELETE
   * without a key segment is answered 404 and changes nothing.
   */
  method Handle(store: InvoiceCollection, verb: HttpMethod, url: string,
                body: Invoice, now: string, writeOk: bool, upsertOk: bool)
    returns (status: nat, number: nat)
    requires store.Valid()
    modifies store
    ensures store.Valid()
    ensures status == METHOD_NOT_ALLOWED <==> verb == Other
    ensures ReadOnly(Classify(verb, url)) ==> status == OK
    ensures Classify(verb, url).LastNumberRoute? ==> number == LastNumber(store.counterDoc)
    ensures Classify(verb, url).NextNumberRoute? ==> number == LastNumber(store.counterDoc) + 1
    ensures !(Classify(verb, url).LastNumberRoute? || Classify(verb, url).NextNumberRoute?) ==> number == 0
    ensures Classify(verb, url).GetOne? ==>
              (status == OK <==> HasInvoice(store.invoices, Classify(verb, url).key)) &&
              (status != OK ==> status == NOT_FOUND)
    ensures !(verb in {POST, PUT, DELETE}) ==>
              store.invoices == old(store.invoices) && store.counterDoc == old(store.counterDoc)
    ensures verb == POST ==>
              CreateOutcome(old(store.invoices), old(store.counterDoc), store.invoices, store.counterDoc,
                            body, now, writeOk, upsertOk, status)
    ensures (Classify(verb, url).Update? || Classify(verb, url).Delete?) && Classify(verb, url).target.None? ==>
              status == NOT_FOUND && store.invoices == old(store.invoices) && store.counterDoc == old(store.counterDoc)
    ensures Classify(verb, url).Update? && Classify(verb, url).target.Some? ==>
              UpdateOutcome(old(store.invoices), old(store.counterDoc), store.invoices, store.counterDoc,
                            Classify(verb, url).target.value, body, now, writeOk, status)
    ensures Classify(verb, url).Delete? && Classify(verb, url).target.Some? ==>
              DeleteOutcome(old(store.invoices), old(store.counterDoc), store.invoices, store.counterDoc,
                            Classify(verb, url).target.value, writeOk, status)
  {
    var route := Classify(verb, url);
    status, number := OK, 0;
    match route {
      case Preflight =>
      case ListAll =>
      case LastNumberRoute =>
        number := store.ReadLastNumber();
      case NextNumberRoute =>
        number := store.ReadNextNumber();
      case Export =>
      case GetOne(key) =>
        var found := store.FindOne(key);
        if found.None? {
          status := NOT_FOUND;
        }
      case Create =>
        status := store.CreateInvoice(body, now, writeOk, upsertOk);
      case Update(key) =>
        if key.None? {
          status := NOT_FOUND;
        } else {
          status := store.UpdateInvoice(key.value, body, now, writeOk);
        }
      case Delete(key) =>
        if key.None? {
          status := NOT_FOUND;
        } else {
          status := store.DeleteInvoice(key.value, writeOk);
        }
      case NotAllowed =>
        status := METHOD_NOT_ALLOWED;
    }
  }
}
