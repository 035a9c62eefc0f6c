/** The record table `animalsData` and the request handler of the animals
    endpoint. The table is the state of a `Store`; `Dispatch` is the
    handler's decision ladder as a function of the request, the configured
    key and the table, and `Store.Handler` runs it on the store in place. */
module Animals {
  import opened Wrappers
  import opened Json
  import opened Auth

  /** A stored record: exactly the three fields copied from the posted
      `animal`, as the body held them. */
  datatype Animal = Animal(jobId: Value, name: Value, generation: Value)

  /** What the handler reads of a request: its method, the two
      credential headers, the already-extracted `key` query parameter and
      the parsed body (`None` when `req.body` is `undefined`). */
  datatype Request = Request(
    httpMethod: string,
    xApiKey: Option<string>,
    authorization: Option<string>,
    queryKey: Option<string>,
    body: Option<Value>)

  /** The response, reduced to its status and, for a listing, the records
      and their `total`. */
  datatype Reply =
    | Preflight
    | Unauthorized
    | ServerError
    | InvalidData
    | Accepted
    | Listing(animals: seq<Animal>, total: nat)
    | MethodNotAllowed
  {
    /** The HTTP status code each reply is sent with. */
    function Status(): int
    {
      match this
      case Preflight => 200
      case Unauthorized => 401
      case ServerError => 500
      case InvalidData => 400
      case Accepted => 200
      case Listing(_, _) => 200
      case MethodNotAllowed => 405
    }
  }

  /** A reply together with the table it leaves behind. */
  datatype Outcome = Outcome(reply: Reply, records: seq<Animal>)

  /** The check `animal && animal.name && animal.generation && animal.jobId`. */
  predicate ValidAnimal(animal: Option<Value>)
  {
    Truthy(animal)
    && Truthy(Field(animal, "name"))
    && Truthy(Field(animal, "generation"))
    && Truthy(Field(animal, "jobId"))
  }

  /** The record pushed for a posted `animal` that passed the check. */
  function ToRecord(animal: Option<Value>): (a: Animal)
    requires ValidAnimal(animal)
  {
    Animal(Field(animal, "jobId").value, Field(animal, "name").value, Field(animal, "generation").value)
  }

  /** `req.headers` and the query key passed to `authenticate`. */
  predicate Authorized(req: Request, apiKey: Option<string>)
  {
    Authenticate(req.xApiKey, req.authorization, req.queryKey, apiKey)
  }

  /** The handler as a function: OPTIONS first, then authentication, then
      POST (destructuring the body, validating, appending), GET, and 405
      for everything else. `apiKey` is the environment's `API_KEY`. */
  function Dispatch(req: Request, apiKey: Option<string>, records: seq<Animal>): (o: Outcome)
    ensures !o.reply.Accepted? ==> o.records == records
    ensures o.reply.Accepted? ==> |o.records| == |records| + 1 && o.records[..|records|] == records
    ensures o.reply.Unauthorized? <==> req.httpMethod != "OPTIONS" && !Authorized(req, apiKey)
  {
    if req.httpMethod == "OPTIONS" then Outcome(Preflight, records)
    else if !Authorized(req, apiKey) then Outcome(Unauthorized, records)
    else if req.httpMethod == "POST" then
      if Nullish(req.body) then Outcome(ServerError, records)
      else
        var animal := Field(req.body, "animal");
        if !ValidAnimal(animal) then Outcome(InvalidData, records)
        else Outcome(Accepted, records + [ToRecord(animal)])
    else if req.httpMethod == "GET" then Outcome(Listing(records, |records|), records)
    else Outcome(MethodNotAllowed, records)
  }

  /** The record a request adds to the table, if any: an independent
      statement of when the handler appends, which does not depend on the
      table. */
  function Admitted(req: Request, apiKey: Option<string>): Option<Animal>
  {
    if req.httpMethod == "POST" && Authorized(req, apiKey) && !Nullish(req.body)
       && ValidAnimal(Field(req.body, "animal"))
    then Some(ToRecord(Field(req.body, "animal")))
    else None
  }

  /** An optional record as a sequence of zero or one records. */
  function AsSeq(a: Option<Animal>): (s: seq<Animal>)
  {
    match a
    case None => []
    case Some(x) => [x]
  }

  /** The cleanup callback: `if (count > 0) animalsData = []`. */
  function Cleared(records: seq<Animal>): (r: seq<Animal>)
    ensures r == []
  {
    if |records| > 0 then [] else records
  }

  /** The module-level table `animalsData` and the operations on it. */
  class Store {
    var animals: seq<Animal>

    /** `let animalsData = []`. */
    constructor ()
      ensures animals == []
    {
      animals := [];
    }

    /** `animalsData.push(record)`. */
    method Push(record: Animal)
      modifies this
      ensures animals == old(animals) + [record]
    {
      animals := animals + [record];
    }

    /** The GET listing `{ animals: animalsData, total: animalsData.length }`. */
    method Snapshot() returns (records: seq<Animal>, total: nat)
      ensures records == animals
      ensures total == |records|
    {
      records := animals;
      total := |animals|;
    }

    /** One run of the periodic cleanup callback. */
    method Cleanup()
      modifies this
      ensures animals == Cleared(old(animals))
    {
      var count := |animals|;
      if count > 0 {
        animals := [];
      }
    }

    /** `handler(req, res)`, reduced to the reply; `apiKey` is
        `process.env.API_KEY`. */
    method Handler(req: Request, apiKey: Option<string>) returns (reply: Reply)
      modifies this
      ensures Outcome(reply, animals) == Dispatch(req, apiKey, old(animals))
    {
      if req.httpMethod == "OPTIONS" {
        return Preflight;
      }
      if !Authenticate(req.xApiKey, req.authorization, req.queryKey, apiKey) {
        return Unauthorized;
      }
      if req.httpMethod == "POST" {
        if Nullish(req.body) {
          return ServerError;
        }
        var animal := Field(req.body, "animal");
        if !ValidAnimal(animal) {
          return InvalidData;
        }
        Push(ToRecord(animal));
        return Accepted;
      }
      if req.httpMethod == "GET" {
        var records, total := Snapshot();
        return Listing(records, total);
      }
      return MethodNotAllowed;
    }
  }

  /** The handler appends exactly the record `Admitted` names, and nothing
      when it names none. */
  lemma DispatchAppendsAdmitted(req: Request, apiKey: Option<string>, records: seq<Animal>)
    ensures Dispatch(req, apiKey, records).records == records + AsSeq(Admitted(req, apiKey))
  {
  }

  /** An authorised POST whose `animal` has truthy `name`, `generation` and
      `jobId` is answered 200 and appends one record holding exactly those
      three values at the end; earlier records stay as they were. */
  lemma ValidPostAppends(req: Request, apiKey: Option<string>, records: seq<Animal>,
                         jobId: Value, name: Value, generation: Value,
                         top: map<string, Value>, others: map<string, Value>)
    requires req.httpMethod == "POST" && Authorized(req, apiKey)
    requires Truthy(Some(jobId)) && Truthy(Some(name)) && Truthy(Some(generation))
    requires req.body == Some(Obj(top["animal" := Obj(others["jobId" := jobId]["name" := name]["generation" := generation])]))
    ensures Dispatch(req, apiKey, records).reply == Accepted
    ensures Dispatch(req, apiKey, records).reply.Status() == 200
    ensures Dispatch(req, apiKey, records).records == records + [Animal(jobId, name, generation)]
  {
  }

  /** A POST without `animal`, or with `name`, `generation` or `jobId`
      missing or falsy, is answered 400 and leaves the table unchanged;
      one without a body at all is answered 500. */
  lemma InvalidPostRejected(req: Request, apiKey: Option<string>, records: seq<Animal>)
    requires req.httpMethod == "POST" && Authorized(req, apiKey)
    ensures Nullish(req.body) ==> Dispatch(req, apiKey, records) == Outcome(ServerError, records)
    ensures !Nullish(req.body) && !ValidAnimal(Field(req.body, "animal")) ==>
      Dispatch(req, apiKey, records) == Outcome(InvalidData, records)
    ensures Dispatch(req, apiKey, records).reply.Status() == 400 <==>
      !Nullish(req.body) && !ValidAnimal(Field(req.body, "animal"))
  {
  }

  /** An authorised GET lists the current table with `total` its length and
      does not change it. */
  lemma GetLists(req: Request, apiKey: Option<string>, records: seq<Animal>)
    requires req.httpMethod == "GET" && Authorized(req, apiKey)
    ensures Dispatch(req, apiKey, records) == Outcome(Listing(records, |records|), records)
    ensures Dispatch(req, apiKey, records).reply.Status() == 200
  {
  }

  /** The method ladder: OPTIONS needs no credential, any other method
      without a valid one gets 401 (so when no key is configured, every
      non-OPTIONS request does), and an authorised method other than GET
      and POST gets 405. None of these change the table. */
  lemma MethodLadder(req: Request, apiKey: Option<string>, records: seq<Animal>)
    ensures req.httpMethod == "OPTIONS" ==>
      Dispatch(req, apiKey, records) == Outcome(Preflight, records)
    ensures req.httpMethod != "OPTIONS" && !Authorized(req, apiKey) ==>
      Dispatch(req, apiKey, records) == Outcome(Unauthorized, records)
    ensures req.httpMethod != "OPTIONS" && !Present(apiKey) ==>
      Dispatch(req, apiKey, records).reply.Status() == 401
    ensures req.httpMethod !in {"OPTIONS", "GET", "POST"} && Authorized(req, apiKey) ==>
      Dispatch(req, apiKey, records) == Outcome(MethodNotAllowed, records)
  {
  }

  /** The cleanup always leaves the table empty, running it twice is the
      same as running it once, and on an empty table it changes nothing. */
  lemma CleanupEmpties(records: seq<Animal>)
    ensures Cleared(records) == []
    ensures Cleared(Cleared(records)) == Cleared(records)
    ensures Cleared([]) == []
  {
  }
}
