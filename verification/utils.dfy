/** The library's two helpers: the error-message formatter and the
    "every value is a function" check (src/utils.js). */
module Utils {
  import opened Values

  /** The library tag every raised error message starts with. */
  const Tag: string := "minska: "

  /** `formatMsg`: the message with the library tag in front of it. */
  function FormatMsg(msg: string): (r: string)
    ensures |r| == |Tag| + |msg|
    ensures r[..|Tag|] == Tag && r[|Tag|..] == msg
  {
    Tag + msg
  }

  /** Inverse of `FormatMsg`: the message a formatted string carries, if it
      starts with the tag at all. */
  function StripTag(r: string): (m: Option<string>)
    ensures m.Some? <==> |r| >= |Tag| && r[..|Tag|] == Tag
    ensures m.Some? ==> |m.value| == |r| - |Tag|
  {
    if |r| >= |Tag| && r[..|Tag|] == Tag then Some(r[|Tag|..]) else None
  }

  /** Removing the tag gives back the message. */
  lemma StripTagFormatMsg(msg: string)
    ensures StripTag(FormatMsg(msg)) == Some(msg)
  {
  }

  /** Every string the stripper accepts is the formatting of what it returns. */
  lemma FormatMsgStripTag(r: string)
    ensures StripTag(r).Some? ==> FormatMsg(StripTag(r).value) == r
  {
    if StripTag(r).Some? {
      assert r == r[..|Tag|] + r[|Tag|..];
    }
  }

  /** Distinct messages give distinct formatted strings. */
  lemma FormatMsgInjective(a: string, b: string)
    ensures FormatMsg(a) == FormatMsg(b) ==> a == b
  {
    if FormatMsg(a) == FormatMsg(b) {
      StripTagFormatMsg(a);
      StripTagFormatMsg(b);
    }
  }

  /** Reference meaning of `validateObjHasOnlyFunctions`. */
  predicate AllFunctions(obj: map<string, Value>) {
    forall k :: k in obj ==> IsFunction(obj[k])
  }

  /** `validateObjHasOnlyFunctions`: first map every key to whether its value
      is a function, then check that every flag is `true`. The order of
      `Object.keys` does not matter to the answer, so keys are taken in any
      order. */
  method ValidateObjHasOnlyFunctions(obj: map<string, Value>) returns (ok: bool)
    ensures ok <==> AllFunctions(obj)
  {
    var todo := obj.Keys;
    var flags: seq<bool> := [];
    ghost var done: set<string> := {};
    while todo != {}
      invariant todo !! done && todo + done == obj.Keys
      invariant false !in flags <==> forall k :: k in done ==> IsFunction(obj[k])
      decreases todo
    {
      var k :| k in todo;
      flags := flags + [IsFunction(obj[k])];
      todo := todo - {k};
      done := done + {k};
    }
    ok := true;
    var i := 0;
    while i < |flags|
      invariant 0 <= i <= |flags|
      invariant ok <==> false !in flags[..i]
    {
      ok := ok && flags[i];
      assert flags[..i + 1] == flags[..i] + [flags[i]];
      i := i + 1;
    }
    assert flags[..i] == flags;
  }

  /** The empty record passes. */
  lemma AllFunctionsEmpty()
    ensures AllFunctions(map[])
  {
  }

  /** One non-function entry is enough to fail. */
  lemma AllFunctionsAddNonFunction(obj: map<string, Value>, k: string, v: Value)
    ensures !IsFunction(v) ==> !AllFunctions(obj[k := v])
  {
    if !IsFunction(v) {
      assert k in obj[k := v];
    }
  }

  /** Removing entries from a passing record keeps it passing. */
  lemma AllFunctionsRemoveKeys(obj: map<string, Value>, ks: set<string>)
    ensures AllFunctions(obj) ==> AllFunctions(obj - ks)
  {
  }
}
