/** The shape every polling callback works on. The HTTP request and its JSON
    decoding are abstracted into a Fetch: either the decoded array of records
    or a failure (connection error, or a body that is not JSON). The callbacks
    never look at the status code, so a JSON error body is decoded like any
    other; only bodies that decode to an array of objects are modelled. A
    record's values are the text Python's `str` gives them. */
module Poll {
  import opened Wrappers

  type Record = map<string, string>

  datatype Fetch = Ok(records: seq<Record>) | Err

  /** One snapshot of the backend endpoints the portals read. */
  datatype Backend = Backend(
    activePatients: Fetch,
    appointmentsToday: Fetch,
    recentLabReports: Fetch,
    riskScores: Fetch)

  function Min(a: nat, b: nat): nat {
    if a <= b then a else b
  }

  /** Python's slice `rs[:n]`: the first n records, or all of them when fewer. */
  function Take(rs: seq<Record>, n: nat): (t: seq<Record>)
    ensures |t| == Min(n, |rs|)
    ensures forall i :: 0 <= i < |t| ==> t[i] == rs[i]
  {
    if |rs| <= n then rs else rs[..n]
  }

  predicate HasFields(r: Record, fields: set<string>) {
    fields <= r.Keys
  }

  /** A list comprehension whose element expression may raise: the formatted
      list when every element formats, and None as soon as one does not. */
  function Collect<T>(rs: seq<Record>, format: Record -> Option<T>): (out: Option<seq<T>>)
    ensures out.Some? <==> forall i :: 0 <= i < |rs| ==> format(rs[i]).Some?
    ensures out.Some? ==> |out.value| == |rs|
    ensures out.Some? ==> forall i :: 0 <= i < |rs| ==> out.value[i] == format(rs[i]).value
    decreases |rs|
  {
    if rs == [] then Some([])
    else
      match format(rs[0])
      case None => None
      case Some(x) =>
        match Collect(rs[1..], format)
        case None => None
        case Some(xs) => Some([x] + xs)
  }
}
