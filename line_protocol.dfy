/**
 * The line protocol between the manager and the worker: each message is one
 * JSON text followed by a line break. Both directions use it: the manager
 * writes `JSON.stringify(command) + '\n'` to the worker's stdin, the worker
 * prints `json.dumps(message)` (which `print` ends with a line break) to its
 * stdout.
 */
module LineProtocol {
  import opened Wrappers
  import opened Text
  import opened Json
  import opened JsonParse

  /** Each value encoded, in order. */
  function EncodeAll(d: Dialect, vs: seq<Value>): (lines: seq<string>)
    ensures |lines| == |vs|
    ensures forall i :: 0 <= i < |vs| ==> lines[i] == Encode(d, vs[i])
  {
    if vs == [] then [] else [Encode(d, vs[0])] + EncodeAll(d, vs[1..])
  }

  /** The text a writer of the values produces: every encoded value followed by a line break. */
  function Lines(d: Dialect, vs: seq<Value>): string
  {
    Terminated(EncodeAll(d, vs), '\n')
  }

  /** Writing one more value appends its line. */
  lemma LinesAppend(d: Dialect, vs: seq<Value>, v: Value)
    ensures Lines(d, vs + [v]) == Lines(d, vs) + Encode(d, v) + "\n"
  {
    assert EncodeAll(d, vs + [v]) == EncodeAll(d, vs) + [Encode(d, v)];
    TerminatedAppend(EncodeAll(d, vs), Encode(d, v), '\n');
  }

  /**
   * A reader that splits the written text at line breaks finds exactly one
   * piece per value, in order, and then the empty rest after the last break;
   * each piece parses back to its value.
   */
  lemma LinesReadBack(d: Dialect, vs: seq<Value>)
    requires forall i :: 0 <= i < |vs| ==> WellFormed(vs[i])
    ensures Split(Lines(d, vs), '\n') == EncodeAll(d, vs) + [""]
    ensures forall i :: 0 <= i < |vs| ==> Parse(EncodeAll(d, vs)[i]) == Some(vs[i])
  {
    var lines := EncodeAll(d, vs);
    forall i | 0 <= i < |vs| ensures '\n' !in lines[i] && Parse(lines[i]) == Some(vs[i]) {
      EncodeNoNewline(d, vs[i]);
      ParseEncodeLine(d, vs[i]);
    }
    SplitTerminated(lines, '\n');
  }
}
