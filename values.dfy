/**
 * Decoded JSON documents, the input both log-batch handlers work on. PHP's
 * json_decode(…, TRUE) and Python's json.loads both produce a tree of this shape;
 * what each language then does with it (truthiness, `isset`, `in`) lives in the
 * module of that handler.
 */
module Values {
  import opened Wrappers

  /**
   * A JSON number literal: its value mantissa * 10^exponent, and whether it is
   * written with a fraction or an exponent (`isFloat`), which is what decides
   * between an int and a float in json.loads (`1` and `1e0` differ, and
   * `json.dumps` writes them back as `1` and `1.0`). A float may round or
   * underflow (`1e-400` decodes to 0.0); what each decoder computes from the
   * literal is left to the functions the handlers take as parameters.
   */
  datatype Json =
    | Null
    | Bool(b: bool)
    | Number(mantissa: int, exponent: int, isFloat: bool)
    | String(s: string)
    | Array(elems: seq<Json>)
    | Object(members: seq<Member>)

  /** One `"key": value` pair of an object, in document order. */
  datatype Member = Member(key: string, value: Json)

  /**
   * The value a decoder keeps for `key`: both decoders let a later duplicate
   * key overwrite an earlier one, so this is the LAST member with that key.
   */
  function Lookup(members: seq<Member>, key: string): (r: Option<Json>)
    ensures r.None? <==> forall i :: 0 <= i < |members| ==> members[i].key != key
    decreases |members|
  {
    if members == [] then None
    else if members[|members| - 1].key == key then Some(members[|members| - 1].value)
    else Lookup(members[..|members| - 1], key)
  }

  /** A member appended at the end wins for its own key and changes no other key. */
  lemma LookupAppend(members: seq<Member>, m: Member, key: string)
    ensures Lookup(members + [m], key) == if m.key == key then Some(m.value) else Lookup(members, key)
  {
  }

  /** `Lookup` finds the value of the last member carrying `key`. */
  lemma {:induction false} LookupIsLast(members: seq<Member>, key: string)
    requires Lookup(members, key).Some?
    ensures exists i ::
              && 0 <= i < |members|
              && members[i] == Member(key, Lookup(members, key).value)
              && forall j :: i < j < |members| ==> members[j].key != key
    decreases |members|
  {
    var n := |members| - 1;
    if members[n].key != key {
      var init := members[..n];
      LookupIsLast(init, key);
      var i :| && 0 <= i < |init|
               && init[i] == Member(key, Lookup(init, key).value)
               && forall j :: i < j < |init| ==> init[j].key != key;
      assert members[i] == init[i];
      assert forall j :: i < j < n ==> members[j] == init[j];
    }
  }
}
