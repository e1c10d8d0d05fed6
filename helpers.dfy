/** The parameter classifier of the packaged client: a caller's parameter mapping splits
    into plain form fields and file uploads. */
module Helpers {

  /** A parameter value. `Stream` stands for any object with a callable `read`; `handle`
      identifies that object. */
  datatype Value = Stream(handle: nat) | Str(s: string) | Bool(b: bool) | Int(i: int) | Other(tag: nat)

  /** How a boolean is sent: lower-case, never `True` or `1`. */
  function BoolText(b: bool): (t: string)
    ensures t == "true" || t == "false"
    ensures (t == "true") == b
  {
    if b then "true" else "false"
  }

  /** The form fields: strings verbatim and booleans as text; nothing else. */
  function FieldsOf(given: map<string, Value>): (fields: map<string, string>)
    ensures forall k :: k in fields <==> k in given && (given[k].Str? || given[k].Bool?)
    ensures forall k :: k in given && given[k].Str? ==> fields[k] == given[k].s
    ensures forall k :: k in given && given[k].Bool? ==> fields[k] == BoolText(given[k].b)
  {
    map k | k in given && (given[k].Str? || given[k].Bool?) ::
      if given[k].Str? then given[k].s else BoolText(given[k].b)
  }

  /** The file uploads: every stream, unchanged, under its own key. */
  function FilesOf(given: map<string, Value>): (files: map<string, Value>)
    ensures forall k :: k in files <==> k in given && given[k].Stream?
    ensures forall k :: k in files ==> files[k] == given[k]
  {
    map k | k in given && given[k].Stream? :: given[k]
  }

  /** Values that are neither a stream, a string nor a boolean (ints included) are dropped;
      the two outputs have disjoint keys drawn from the input's keys. */
  lemma ClassificationPartition(given: map<string, Value>)
    ensures FieldsOf(given).Keys !! FilesOf(given).Keys
    ensures FieldsOf(given).Keys + FilesOf(given).Keys <= given.Keys
    ensures forall k :: k in given && (given[k].Int? || given[k].Other?) ==>
              k !in FieldsOf(given) && k !in FilesOf(given)
  {
  }

  /** `_split_params_and_files`: one pass over the items, filling two fresh mappings.
      The input is a value, so it is left as it was. */
  method SplitParamsAndFiles(given: map<string, Value>) returns (params: map<string, string>, files: map<string, Value>)
    ensures params == FieldsOf(given)
    ensures files == FilesOf(given)
  {
    params, files := map[], map[];
    var pending := given.Keys;
    while pending != {}
      invariant pending <= given.Keys
      invariant forall k :: k in files <==> k in given && k !in pending && given[k].Stream?
      invariant forall k :: k in files ==> files[k] == given[k]
      invariant forall k :: k in params <==> k in given && k !in pending && (given[k].Str? || given[k].Bool?)
      invariant forall k :: k in params ==> params[k] == FieldsOf(given)[k]
      decreases pending
    {
      var k :| k in pending;
      var v := given[k];
      if v.Stream? {
        files := files[k := v];
      } else if v.Str? {
        params := params[k := v.s];
      } else if v.Bool? {
        params := params[k := BoolText(v.b)];
      }
      pending := pending - {k};
    }
  }
}
