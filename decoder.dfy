/** The `onmessage` decoder (src/hooks/useBettingData.ts:88-129): one text frame
    becomes zero or more update envelopes. JSON.parse is the parameter `parse`,
    which gives None where JSON.parse throws. */
module Decoder {
  import opened Json

  /** A failed frame longer than this many characters draws a warning. */
  const WarnThreshold: nat := 10

  /** The envelopes of one frame, in frame order, and whether a warning is due. */
  datatype Decoded = Decoded(envelopes: seq<Json>, warned: bool)

  /** Drops one leading heartbeat marker 'a', if there is one. */
  function StripHeartbeat(raw: string): (s: string)
    ensures raw == s || raw == ['a'] + s
    ensures raw == ['a'] + s <==> |raw| > 0 && raw[0] == 'a'
  {
    if |raw| > 0 && raw[0] == 'a' then raw[1..] else raw
  }

  /** A string element is parsed once more; one that does not parse, and any
      element that is not a string, stays as it was. */
  function Reparse(item: Json, parse: string -> Option<Json>): (r: Json)
    ensures !item.Str? ==> r == item
    ensures item.Str? && parse(item.s).Some? ==> r == parse(item.s).value
    ensures item.Str? && parse(item.s).None? ==> r == item
  {
    if item.Str? then parse(item.s).GetOr(item) else item
  }

  /** The map-then-filter pass over a parsed array. */
  function KeepObjects(items: seq<Json>, parse: string -> Option<Json>): (r: seq<Json>)
    ensures |r| <= |items|
    ensures forall x :: x in r ==> IsObjectType(x)
  {
    if items == [] then []
    else
      var x := Reparse(items[0], parse);
      (if IsObjectType(x) then [x] else []) + KeepObjects(items[1..], parse)
  }

  function Decode(raw: string, parse: string -> Option<Json>): (d: Decoded)
    ensures forall e :: e in d.envelopes ==> IsObjectType(e)
    ensures d.warned <==> parse(StripHeartbeat(raw)).None? && |raw| > WarnThreshold
    ensures parse(StripHeartbeat(raw)).None? ==> d.envelopes == []
    ensures parse(StripHeartbeat(raw)).Some? && parse(StripHeartbeat(raw)).value.Arr? ==>
              d.envelopes == KeepObjects(parse(StripHeartbeat(raw)).value.items, parse)
    ensures parse(StripHeartbeat(raw)).Some? && parse(StripHeartbeat(raw)).value.Obj? ==>
              d.envelopes == [parse(StripHeartbeat(raw)).value]
    ensures parse(StripHeartbeat(raw)).Some? && !IsObjectType(parse(StripHeartbeat(raw)).value) ==>
              d.envelopes == []
  {
    match parse(StripHeartbeat(raw))
    case None => Decoded([], |raw| > WarnThreshold)
    case Some(Arr(items)) => Decoded(KeepObjects(items, parse), false)
    case Some(Obj(members)) => Decoded([Obj(members)], false)
    case Some(_) => Decoded([], false)
  }

  /** The filter keeps survivors in their original order: filtering a
      concatenation concatenates the filtered parts. */
  lemma {:induction false} KeepObjectsAppend(a: seq<Json>, b: seq<Json>, parse: string -> Option<Json>)
    ensures KeepObjects(a + b, parse) == KeepObjects(a, parse) + KeepObjects(b, parse)
  {
    if a == [] {
      assert a + b == b;
    } else {
      assert (a + b)[0] == a[0] && (a + b)[1..] == a[1..] + b;
      KeepObjectsAppend(a[1..], b, parse);
    }
  }

  /** What survives: exactly the elements that are objects or arrays once
      string elements have been parsed again. */
  lemma {:induction false} KeepObjectsMember(items: seq<Json>, parse: string -> Option<Json>, x: Json)
    ensures x in KeepObjects(items, parse) <==>
            IsObjectType(x) && exists i :: 0 <= i < |items| && Reparse(items[i], parse) == x
  {
    if items != [] {
      KeepObjectsMember(items[1..], parse, x);
      if IsObjectType(x) && (exists i :: 0 <= i < |items| && Reparse(items[i], parse) == x) {
        var i :| 0 <= i < |items| && Reparse(items[i], parse) == x;
        if i > 0 {
          assert items[1..][i - 1] == items[i];
        }
      }
      if exists i :: 0 <= i < |items[1..]| && Reparse(items[1..][i], parse) == x {
        var i :| 0 <= i < |items[1..]| && Reparse(items[1..][i], parse) == x;
        assert items[i + 1] == items[1..][i];
      }
    }
  }

  /** A double-encoded update `a["{\"id\":\"1\"}"]` yields exactly the object
      {id: "1"}, given what JSON.parse makes of the two texts involved. */
  lemma DecodeDoubleEncoded(parse: string -> Option<Json>)
    requires parse("[\"{\\\"id\\\":\\\"1\\\"}\"]") == Some(Arr([Str("{\"id\":\"1\"}")]))
    requires parse("{\"id\":\"1\"}") == Some(Obj([("id", Str("1"))]))
    ensures Decode("a[\"{\\\"id\\\":\\\"1\\\"}\"]", parse) == Decoded([Obj([("id", Str("1"))])], false)
  {
    assert StripHeartbeat("a[\"{\\\"id\\\":\\\"1\\\"}\"]") == "[\"{\\\"id\\\":\\\"1\\\"}\"]";
  }

  /** A short unparsable frame such as "x" yields nothing and no warning. */
  lemma DecodeShortGarbage(parse: string -> Option<Json>)
    requires parse("x") == None
    ensures Decode("x", parse) == Decoded([], false)
  {
  }

  /** Only one marker goes: "aa" leaves "a" to the parser. */
  lemma StripsOneMarkerOnly()
    ensures StripHeartbeat("aa") == "a" && StripHeartbeat("a") == "" && StripHeartbeat("[1]") == "[1]"
  {
  }
}
