/**
 * Reading a value out of the loaded manifest by a path of keys, with the two
 * errors that name the part of the path that was walked.
 */
module Manifest {
  import opened Wrappers
  import opened Json
  import Text

  /**
   * `NotAMapping(keys[:i])`: the value reached after `i` keys is not a mapping.
   * `MissingKey(keys[:i+1])`: key `i` is absent from the mapping reached.
   * Both are `LookupError`s in the source; only the second is a `KeyError`.
   */
  datatype LookupError = NotAMapping(path: seq<string>) | MissingKey(path: seq<string>)

  datatype LookupResult = Found(value: Value) | Failed(error: LookupError)

  /** The walk from key `i` on, `out` being the value reached after `i` keys. */
  function LookupFrom(out: Value, keys: seq<string>, i: nat): (r: LookupResult)
    requires i <= |keys|
    ensures r.Failed? && r.error.NotAMapping? ==>
              i <= |r.error.path| < |keys| && r.error.path == keys[..|r.error.path|]
    ensures r.Failed? && r.error.MissingKey? ==>
              i < |r.error.path| <= |keys| && r.error.path == keys[..|r.error.path|]
    decreases |keys| - i
  {
    if i == |keys| then Found(out)
    else if !out.Object? then Failed(NotAMapping(keys[..i]))
    else match Get(out.entries, keys[i])
      case None => Failed(MissingKey(keys[..i + 1]))
      case Some(v) => LookupFrom(v, keys, i + 1)
  }

  /**
   * The value at a key path. An empty path gives the input itself; an error
   * names a prefix of the path: shorter than the path for a value that is not
   * a mapping, non-empty for a missing key.
   */
  function Lookup(d: Value, keys: seq<string>): (r: LookupResult)
    ensures keys == [] ==> r == Found(d)
    ensures r.Failed? && r.error.NotAMapping? ==>
              |r.error.path| < |keys| && r.error.path == keys[..|r.error.path|]
    ensures r.Failed? && r.error.MissingKey? ==>
              0 < |r.error.path| <= |keys| && r.error.path == keys[..|r.error.path|]
  {
    LookupFrom(d, keys, 0)
  }

  /** The nested lookup of the source: a loop that reassigns the value reached. */
  method GetNested(d: Value, keys: seq<string>) returns (r: LookupResult)
    ensures r == Lookup(d, keys)
  {
    var out := d;
    var i := 0;
    while i < |keys|
      invariant 0 <= i <= |keys|
      invariant LookupFrom(out, keys, i) == Lookup(d, keys)
    {
      if !out.Object? {
        return Failed(NotAMapping(keys[..i]));
      }
      var next := Get(out.entries, keys[i]);
      if next.None? {
        return Failed(MissingKey(keys[..i + 1]));
      }
      out := next.value;
      i := i + 1;
    }
    return Found(out);
  }

  /**
   * Reference definition by the last key: the lookup of a path is the lookup
   * of its prefix, followed by one more step. An error of the prefix is the
   * error of the whole path.
   */
  function Reference(d: Value, keys: seq<string>): LookupResult
  {
    if keys == [] then Found(d)
    else
      var prefix := keys[..|keys| - 1];
      match Reference(d, prefix)
      case Failed(e) => Failed(e)
      case Found(out) =>
        if !out.Object? then Failed(NotAMapping(prefix))
        else match Get(out.entries, keys[|keys| - 1])
          case None => Failed(MissingKey(keys))
          case Some(v) => Found(v)
  }

  lemma {:induction false} ReferenceFailureSticks(d: Value, keys: seq<string>, j: nat)
    requires j <= |keys| && Reference(d, keys[..j]).Failed?
    ensures Reference(d, keys) == Reference(d, keys[..j])
    decreases |keys| - j
  {
    if j < |keys| {
      assert keys[..j + 1][..j] == keys[..j];
      ReferenceFailureSticks(d, keys, j + 1);
    } else {
      assert keys[..j] == keys;
    }
  }

  lemma {:induction false} LookupFromReference(d: Value, keys: seq<string>, i: nat, out: Value)
    requires i <= |keys| && Reference(d, keys[..i]) == Found(out)
    ensures LookupFrom(out, keys, i) == Reference(d, keys)
    decreases |keys| - i
  {
    if i == |keys| {
      assert keys[..i] == keys;
    } else {
      assert keys[..i + 1][..i] == keys[..i];
      assert keys[..i + 1][i] == keys[i];
      if !out.Object? {
        ReferenceFailureSticks(d, keys, i + 1);
      } else {
        match Get(out.entries, keys[i])
        case None =>
          ReferenceFailureSticks(d, keys, i + 1);
        case Some(v) =>
          LookupFromReference(d, keys, i + 1, v);
      }
    }
  }

  /**
   * The front-to-back walk agrees with the definition by prefixes: a path of
   * present keys through mappings gives the stored value, and the first
   * failing step decides the error.
   */
  lemma LookupIsReference(d: Value, keys: seq<string>)
    ensures Lookup(d, keys) == Reference(d, keys)
  {
    assert keys[..0] == [];
    LookupFromReference(d, keys, 0, d);
  }

  /** One more key after a successful lookup: the three outcomes of one step. */
  lemma LookupStep(d: Value, keys: seq<string>, key: string, out: Value)
    requires Lookup(d, keys) == Found(out)
    ensures !out.Object? ==> Lookup(d, keys + [key]) == Failed(NotAMapping(keys))
    ensures out.Object? && !HasKey(out.entries, key) ==>
              Lookup(d, keys + [key]) == Failed(MissingKey(keys + [key]))
    ensures out.Object? && HasKey(out.entries, key) ==>
              Lookup(d, keys + [key]) == Found(Get(out.entries, key).value)
  {
    LookupIsReference(d, keys);
    LookupIsReference(d, keys + [key]);
    assert (keys + [key])[..|keys|] == keys;
  }

  /** Once a lookup fails, no longer path through it succeeds or fails differently. */
  lemma LookupFirstFailure(d: Value, keys: seq<string>, more: seq<string>)
    requires Lookup(d, keys).Failed?
    ensures Lookup(d, keys + more) == Lookup(d, keys)
  {
    LookupIsReference(d, keys);
    LookupIsReference(d, keys + more);
    assert (keys + more)[..|keys|] == keys;
    ReferenceFailureSticks(d, keys + more, |keys|);
  }

  /** `'>'.join(path)`: how the messages write a sub-path. */
  function PathText(path: seq<string>): string
  {
    Text.Join(path, ">")
  }

  const NOT_A_MAPPING_LEAD := "The value at "
  const NOT_A_MAPPING_TAIL := " is not a mapping"
  const MISSING_KEY_LEAD := "The key "
  const MISSING_KEY_TAIL := " could not be found"

  /** The text each error carries. */
  function Message(e: LookupError): string
  {
    match e
    case NotAMapping(p) => NOT_A_MAPPING_LEAD + PathText(p) + NOT_A_MAPPING_TAIL
    case MissingKey(p) => MISSING_KEY_LEAD + PathText(p) + MISSING_KEY_TAIL
  }

  /** A sub-path read back from its text: the empty text names the empty path. */
  function SplitPath(t: string): seq<string>
  {
    if t == "" then [] else Text.Split(t, '>')
  }

  /** Reading a message back: which error it reports and the sub-path it names. */
  function ParseMessage(m: string): Option<LookupError>
  {
    var a, b := |NOT_A_MAPPING_LEAD|, |NOT_A_MAPPING_TAIL|;
    var c, d := |MISSING_KEY_LEAD|, |MISSING_KEY_TAIL|;
    if |m| >= a + b && m[..a] == NOT_A_MAPPING_LEAD && m[|m| - b..] == NOT_A_MAPPING_TAIL then
      Some(NotAMapping(SplitPath(m[a..|m| - b])))
    else if |m| >= c + d && m[..c] == MISSING_KEY_LEAD && m[|m| - d..] == MISSING_KEY_TAIL then
      Some(MissingKey(SplitPath(m[c..|m| - d])))
    else None
  }

  /**
   * The text of a sub-path gives the sub-path back, the empty one included,
   * when no key contains `>` and the path is not the single empty key
   * (which `'>'.join` writes as the empty path is written).
   */
  lemma PathTextRoundTrip(path: seq<string>)
    requires path != [""] && forall k <- path :: '>' !in k
    ensures SplitPath(PathText(path)) == path
  {
    if path != [] {
      Text.SplitJoin(path, '>');
      assert [('>')] == ">";
    }
  }

  /**
   * A message identifies its error: the kind and the exact sub-path, when no
   * key in it contains `>` and the sub-path is not the single empty key. This
   * covers `NotAMapping([])`, the error of a manifest that is not a mapping.
   */
  lemma MessageNamesPath(e: LookupError)
    requires e.path != [""] && forall k <- e.path :: '>' !in k
    ensures ParseMessage(Message(e)) == Some(e)
  {
    var t := PathText(e.path);
    PathTextRoundTrip(e.path);
    var m := Message(e);
    if e.NotAMapping? {
      assert m[..|NOT_A_MAPPING_LEAD|] == NOT_A_MAPPING_LEAD;
      assert m[|m| - |NOT_A_MAPPING_TAIL|..] == NOT_A_MAPPING_TAIL;
      assert m[|NOT_A_MAPPING_LEAD|..|m| - |NOT_A_MAPPING_TAIL|] == t;
    } else {
      assert m[..|NOT_A_MAPPING_LEAD|] != NOT_A_MAPPING_LEAD by {
        assert m[4] == 'k';
      }
      assert m[..|MISSING_KEY_LEAD|] == MISSING_KEY_LEAD;
      assert m[|m| - |MISSING_KEY_TAIL|..] == MISSING_KEY_TAIL;
      assert m[|MISSING_KEY_LEAD|..|m| - |MISSING_KEY_TAIL|] == t;
    }
  }
}
