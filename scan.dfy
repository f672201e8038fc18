/**
 * The data the scanner produces and the run's optional header argument:
 * one result record per discovered endpoint, and the extraction of the
 * record list from the decoded JSON document (`parse_ffuf_output`).
 */
module Scan {
  import opened Wrappers

  /** One result of the external scanner; `redirect` is its optional `redirectlocation`. */
  datatype Record = Record(url: string, status: int, length: int, lines: int, redirect: Option<string>)

  /**
   * Python truthiness of the optional `--header` argument: absent (`None`)
   * and the empty string are both false.
   */
  predicate Given(header: Option<string>) {
    header.Some? && header.value != ""
  }

  /** The key of the scanner's output under which the result array sits. */
  const ResultsKey: string := "results"

  /**
   * The result array of the decoded output document, or no results when the
   * document has no `results` key.
   */
  function ParseResults(data: map<string, seq<Record>>): (rs: seq<Record>)
    ensures ResultsKey in data ==> rs == data[ResultsKey]
    ensures ResultsKey !in data ==> rs == []
  {
    if ResultsKey in data then data[ResultsKey] else []
  }

  /** Only the `results` key matters: adding, replacing or dropping any other key changes nothing. */
  lemma ParseResultsIgnoresOtherKeys(data: map<string, seq<Record>>, k: string, v: seq<Record>)
    requires k != ResultsKey
    ensures ParseResults(data[k := v]) == ParseResults(data)
    ensures ParseResults(data - {k}) == ParseResults(data)
  {
  }

  /** Whatever array is stored under `results` comes back unchanged: same length, same order. */
  lemma ParseResultsReturnsStored(data: map<string, seq<Record>>, rs: seq<Record>)
    ensures ParseResults(data[ResultsKey := rs]) == rs
    ensures |ParseResults(data[ResultsKey := rs])| == |rs|
    ensures forall i :: 0 <= i < |rs| ==> ParseResults(data[ResultsKey := rs])[i] == rs[i]
  {
  }
}
