/**
  The transformation tree: a Block holds ordered Codes, a Code holds ordered
  script lines. Both are immutable once constructed, so they are datatypes;
  their constructors read a raw PHP array and raise a TypeError (strict
  types) when a key is missing or holds the wrong kind of value.
 */
module Transformation {
  import opened Wrappers
  import opened Php

  datatype Code = Code(name: string, scripts: seq<string>)

  datatype Block = Block(name: string, codes: seq<Code>)

  predicate AllStrings(vs: seq<Value>) {
    forall i :: 0 <= i < |vs| ==> vs[i].Str?
  }

  function Texts(vs: seq<Value>): (r: seq<string>)
    requires AllStrings(vs)
    ensures |r| == |vs| && forall i :: 0 <= i < |vs| ==> vs[i] == Str(r[i])
  {
    seq(|vs|, i requires 0 <= i < |vs| => vs[i].s)
  }

  /** `data[key]` exists and is a string. */
  predicate StringAt(data: Value, key: string) {
    Get(data, key).Some? && Get(data, key).value.Str?
  }

  /** `data[key]` exists and is an array. */
  predicate ArrayAt(data: Value, key: string) {
    Get(data, key).Some? && IsArray(Get(data, key).value)
  }

  /** `entry` is an array whose values are exactly `lines`, in order. */
  predicate HoldsLines(entry: Option<Value>, lines: seq<string>) {
    && entry.Some? && IsArray(entry.value)
    && |Values(entry.value)| == |lines|
    && forall i :: 0 <= i < |lines| ==> Values(entry.value)[i] == Str(lines[i])
  }

  /** The raw array a Code can be built from. */
  predicate IsCodeData(data: Value) {
    && IsArray(data)
    && StringAt(data, "name")
    && ArrayAt(data, "script")
    && AllStrings(Values(Get(data, "script").value))
  }

  /** `new Code($data)`: the name from `data['name']`, the lines from `data['script']`. */
  function NewCode(data: Value): (r: Result<Code, Failure>)
    ensures r.Ok? <==> IsCodeData(data)
    ensures r.Ok? ==> Get(data, "name") == Some(Str(r.value.name))
    ensures r.Ok? ==> HoldsLines(Get(data, "script"), r.value.scripts)
    ensures r.Err? ==> r.error.TypeError?
  {
    if !IsArray(data) then Err(TypeError("code entry"))
    else if !StringAt(data, "name") then Err(TypeError("name"))
    else if !ArrayAt(data, "script") then Err(TypeError("script"))
    else
      var lines := Values(Get(data, "script").value);
      if !AllStrings(lines) then Err(TypeError("script"))
      else Ok(Code(Get(data, "name").value.s, Texts(lines)))
  }

  /** `array_map(fn(array $data) => new Code($data), $items)`: builds the Codes in
      order and stops at the first entry whose constructor raises. */
  function NewCodes(items: seq<Value>): (r: Result<seq<Code>, Failure>)
    ensures r.Ok? <==> forall i :: 0 <= i < |items| ==> NewCode(items[i]).Ok?
    ensures r.Ok? ==> |r.value| == |items|
    ensures r.Ok? ==> forall i :: 0 <= i < |items| ==> NewCode(items[i]) == Ok(r.value[i])
    ensures r.Err? ==> r.error.TypeError?
  {
    if items == [] then Ok([])
    else match NewCode(items[0])
      case Err(e) => Err(e)
      case Ok(c) =>
        var tail := items[1..];
        assert forall j :: 1 <= j < |items| ==> items[j] == tail[j - 1];
        match NewCodes(tail)
        case Err(e) => Err(e)
        case Ok(cs) => Ok([c] + cs)
  }

  /** When a code entry is malformed, building the Codes raises the error of the first
      malformed entry; every entry before it was well formed. */
  lemma {:induction false} NewCodesFirstError(items: seq<Value>)
    requires NewCodes(items).Err?
    ensures exists i :: 0 <= i < |items| && NewCode(items[i]) == Err(NewCodes(items).error)
                        && forall j :: 0 <= j < i ==> NewCode(items[j]).Ok?
  {
    var e := NewCodes(items).error;
    if NewCode(items[0]).Err? {
      assert NewCode(items[0]) == Err(e);
    } else {
      var tail := items[1..];
      assert NewCodes(tail) == Err(e);
      NewCodesFirstError(tail);
      var i :| 0 <= i < |tail| && NewCode(tail[i]) == Err(e) && forall j :: 0 <= j < i ==> NewCode(tail[j]).Ok?;
      assert items[i + 1] == tail[i];
      forall j | 0 <= j < i + 1
        ensures NewCode(items[j]).Ok?
      {
        if j > 0 {
          assert items[j] == tail[j - 1];
        }
      }
    }
  }

  /** The raw array a Block can be built from: a name and an array of code entries. */
  predicate IsBlockData(data: Value) {
    && IsArray(data)
    && StringAt(data, "name")
    && ArrayAt(data, "codes")
  }

  /** `new Block($data)`: the name from `data['name']`, one Code per entry of `data['codes']`. */
  function NewBlock(data: Value): (r: Result<Block, Failure>)
    ensures r.Ok? <==> IsBlockData(data) && NewCodes(Values(Get(data, "codes").value)).Ok?
    ensures r.Ok? ==> Get(data, "name") == Some(Str(r.value.name))
    ensures r.Ok? ==> |r.value.codes| == |Values(Get(data, "codes").value)|
    ensures r.Ok? ==> forall i :: 0 <= i < |r.value.codes| ==>
                       NewCode(Values(Get(data, "codes").value)[i]) == Ok(r.value.codes[i])
    ensures r.Err? ==> r.error.TypeError?
  {
    if !IsArray(data) then Err(TypeError("block entry"))
    else if !StringAt(data, "name") then Err(TypeError("name"))
    else if !ArrayAt(data, "codes") then Err(TypeError("codes"))
    else
      match NewCodes(Values(Get(data, "codes").value))
      case Err(e) => Err(e)
      case Ok(codes) => Ok(Block(Get(data, "name").value.s, codes))
  }

  /** The configuration entry a Code is read from (the shape the configuration schema requires). */
  function CodeData(code: Code): Value {
    Assoc([("name", Str(code.name)), ("script", List(seq(|code.scripts|, i requires 0 <= i < |code.scripts| => Str(code.scripts[i]))))])
  }

  /** The configuration entry a Block is read from. */
  function BlockData(block: Block): Value {
    Assoc([("name", Str(block.name)), ("codes", List(seq(|block.codes|, i requires 0 <= i < |block.codes| => CodeData(block.codes[i]))))])
  }

  /** Constructing a Code gives back exactly the name and lines it was configured with. */
  lemma CodeRoundTrip(code: Code)
    ensures NewCode(CodeData(code)) == Ok(code)
  {
    var data := CodeData(code);
    assert Get(data, "name") == Some(Str(code.name));
    assert data.entries[1..][0] == ("script", data.entries[1].1);
    assert Lookup(data.entries[1..], "script") == Some(data.entries[1].1);
    assert data.entries[0].0 != "script";
    assert Get(data, "script") == Some(data.entries[1].1);
    var lines := Values(Get(data, "script").value);
    assert |lines| == |code.scripts|;
    assert forall i :: 0 <= i < |lines| ==> lines[i] == Str(code.scripts[i]);
    assert IsCodeData(data);
    var r := NewCode(data);
    assert r.Ok?;
    assert r.value.scripts == code.scripts;
  }

  /** Constructing a Block gives back exactly its name and its Codes, in order. */
  lemma BlockRoundTrip(block: Block)
    ensures NewBlock(BlockData(block)) == Ok(block)
  {
    var data := BlockData(block);
    assert data.entries[1..][0] == ("codes", data.entries[1].1);
    assert Lookup(data.entries[1..], "codes") == Some(data.entries[1].1);
    assert data.entries[0].0 != "codes";
    assert Get(data, "codes") == Some(data.entries[1].1);
    var items := Values(Get(data, "codes").value);
    assert Get(data, "name") == Some(Str(block.name));
    assert |items| == |block.codes|;
    forall i | 0 <= i < |items|
      ensures NewCode(items[i]) == Ok(block.codes[i])
    {
      CodeRoundTrip(block.codes[i]);
    }
    var r := NewCodes(items);
    assert r.Ok?;
    assert r.value == block.codes;
  }

  /** A Code depends on `data['name']` and `data['script']` alone, each read independently. */
  lemma CodeReadsOnlyItsKeys(d1: Value, d2: Value)
    requires IsArray(d1) && IsArray(d2)
    requires Get(d1, "name") == Get(d2, "name") && Get(d1, "script") == Get(d2, "script")
    ensures NewCode(d1) == NewCode(d2)
  {
  }
}
