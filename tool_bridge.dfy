/**
 * The `wrapper` of the DocxTemplater node: it turns a connected tool into a
 * template filter `(arg1, ...args) => promise`. The filter packs the piped
 * value and the filter's extra arguments into the tool's payload, invokes
 * the tool once, and tries to read a text result back as JSON.
 */
module ToolBridge {
  import opened Wrappers
  import opened Json
  import Decimal

  /**
   * The shape of a tool's input schema, as far as the filter looks at it:
   * a Zod object schema with its keys in `Object.keys` order (integer-like
   * keys ascending first, then the others in insertion order), or anything else.
   */
  datatype Schema = ZodObject(shapeKeys: seq<string>) | OtherSchema

  /** What a tool's `invoke` resolves to: text or a number. */
  datatype ToolOutput = TextOut(text: string) | NumberOut(number: int)

  /**
   * A connected tool. `invoke` stands for the asynchronous call: it either
   * resolves with an output or rejects with an error message.
   */
  datatype Tool = Tool(name: string, schema: Schema, invoke: Value -> Result<ToolOutput, string>)

  /** `JSON.parse` on a text: the parsed value, or None where it would throw. */
  type JsonParse = string -> Option<Value>

  /** The key `arg${k}` under which the k-th extra argument is passed. */
  function ArgKey(k: nat): (key: string)
    ensures |key| >= 4 && key[..3] == "arg"
    ensures (forall m :: 3 <= m < |key| ==> Decimal.IsDigit(key[m])) && Decimal.DecimalValue(key[3..]) == k
  {
    Decimal.DecimalRoundTrip(k);
    var key := "arg" + Decimal.NatToDecimal(k);
    assert key[3..] == Decimal.NatToDecimal(k);
    key
  }

  /** `Object.fromEntries(args.map((a, i) => [`arg${i}`, a]))`. */
  function ArgFields(args: seq<Value>): (r: seq<(string, Value)>)
    ensures |r| == |args|
    ensures forall k :: 0 <= k < |args| ==> r[k] == (ArgKey(k), args[k])
  {
    seq(|args|, k requires 0 <= k < |args| => (ArgKey(k), args[k]))
  }

  /**
   * `Object.keys(shape)[0]` used as a computed key: for a shape without
   * keys that is `undefined`, which JavaScript turns into the key "undefined".
   */
  function ExpectedKey(shapeKeys: seq<string>): (key: string)
    ensures shapeKeys != [] ==> key in shapeKeys && key == shapeKeys[0]
    ensures shapeKeys == [] ==> key == "undefined"
  {
    if shapeKeys == [] then "undefined" else shapeKeys[0]
  }

  /** The payload `toolArgs` handed to `t.invoke`. */
  function Payload(value: Value, args: seq<Value>, schema: Schema): (p: Value)
    ensures |args| > 0 ==> p.Obj? && Get(p.fields, "input") == Some(value)
    ensures |args| == 0 && schema.ZodObject? ==>
      p.Obj? && |p.fields| == 1 && Get(p.fields, ExpectedKey(schema.shapeKeys)) == Some(value)
    ensures |args| == 0 && schema.OtherSchema? ==> p == value
  {
    if |args| > 0 then
      Obj([("input", value), ("args", Arr(args))] + ArgFields(args))
    else
      match schema
      case ZodObject(shapeKeys) => Obj([(ExpectedKey(shapeKeys), value)])
      case OtherSchema => value
  }

  /** Distinct argument positions give distinct keys. */
  lemma ArgKeyInjective(i: nat, j: nat)
    ensures ArgKey(i) == ArgKey(j) <==> i == j
  {
  }

  /**
   * With one or more extra arguments the payload is the object
   * `{input: value, args: args, arg0: args[0], ...}` with no repeated key,
   * whatever the schema.
   */
  lemma PayloadWithArgs(value: Value, args: seq<Value>, schema: Schema)
    requires |args| > 0
    ensures var p := Payload(value, args, schema);
      && p.Obj?
      && |p.fields| == |args| + 2
      && DistinctKeys(p.fields)
      && Get(p.fields, "input") == Some(value)
      && Get(p.fields, "args") == Some(Arr(args))
      && (forall k :: 0 <= k < |args| ==> Get(p.fields, ArgKey(k)) == Some(args[k]))
      && (forall other: Schema :: Payload(value, args, other) == p)
  {
    var fields := Payload(value, args, schema).fields;
    forall i, j | 0 <= i < j < |fields| ensures fields[i].0 != fields[j].0 {
      if i >= 2 {
        ArgKeyInjective(i - 2, j - 2);
      } else if i == 0 {
        assert fields[j].0[0] == 'a';
      } else {
        assert fields[j].0 == ArgKey(j - 2);
        assert fields[j].0[3] != 's';
      }
    }
    GetAt(fields, 0);
    GetAt(fields, 1);
    forall k | 0 <= k < |args| ensures Get(fields, ArgKey(k)) == Some(args[k]) {
      GetAt(fields, k + 2);
    }
  }

  /**
   * With no extra argument the schema decides: an object schema gets the
   * value wrapped under its first key, any other schema gets the value itself.
   */
  lemma PayloadWithoutArgs(value: Value, schema: Schema)
    ensures schema.ZodObject? ==> Payload(value, [], schema) == Obj([(ExpectedKey(schema.shapeKeys), value)])
    ensures schema.OtherSchema? ==> Payload(value, [], schema) == value
  {
  }

  /** `value | name(a, b)` invokes the tool with `{input: value, args: [a, b], arg0: a, arg1: b}`. */
  lemma TwoArgumentExample(value: Value, a: Value, b: Value, schema: Schema)
    ensures Payload(value, [a, b], schema)
         == Obj([("input", value), ("args", Arr([a, b])), ("arg0", a), ("arg1", b)])
  {
    assert Decimal.NatToDecimal(0) == "0";
    assert Decimal.NatToDecimal(1) == "1";
    assert ArgFields([a, b]) == [(ArgKey(0), a), (ArgKey(1), b)];
    assert ArgKey(0) == "arg0" && ArgKey(1) == "arg1";
  }

  /** The text `JSON.parse` reads for a tool output: a number is first turned into its decimal text. */
  function OutputText(out: ToolOutput): string {
    match out
    case TextOut(text) => text
    case NumberOut(n) => Decimal.IntToDecimal(n)
  }

  /** The tool output as a value, before any parsing. */
  function OutputValue(out: ToolOutput): Value {
    match out
    case TextOut(text) => Str(text)
    case NumberOut(n) => Num(n)
  }

  /**
   * `try { val = JSON.parse(val) } catch {}; return val`: the parsed value
   * when the output parses, otherwise the output unchanged.
   */
  function ParseOrKeep(out: ToolOutput, parse: JsonParse): (v: Value)
    ensures parse(OutputText(out)).Some? ==> v == parse(OutputText(out)).value
    ensures parse(OutputText(out)).None? ==> v == OutputValue(out)
  {
    match parse(OutputText(out))
    case Some(parsed) => parsed
    case None => OutputValue(out)
  }

  /**
   * The filter built for `tool`, applied to the piped `value` and the extra
   * `args`: it rejects exactly when the tool's invocation rejects, with the
   * same error, and never because the output failed to parse.
   */
  function ApplyFilter(tool: Tool, value: Value, args: seq<Value>, parse: JsonParse): (r: Result<Value, string>)
    ensures r.Failure? <==> tool.invoke(Payload(value, args, tool.schema)).Failure?
    ensures r.Failure? ==> r.error == tool.invoke(Payload(value, args, tool.schema)).error
    ensures r.Success? ==> r.value == ParseOrKeep(tool.invoke(Payload(value, args, tool.schema)).value, parse)
  {
    match tool.invoke(Payload(value, args, tool.schema))
    case Failure(e) => Failure(e)
    case Success(out) => Success(ParseOrKeep(out, parse))
  }

  /**
   * A number result comes back as the same number, provided `JSON.parse`
   * reads a number's own decimal text as that number (or rejects it).
   */
  lemma NumberResult(tool: Tool, value: Value, args: seq<Value>, parse: JsonParse, n: int)
    requires tool.invoke(Payload(value, args, tool.schema)) == Success(NumberOut(n))
    requires parse(Decimal.IntToDecimal(n)) in {None, Some(Num(n))}
    ensures ApplyFilter(tool, value, args, parse) == Success(Num(n))
  {
  }

  /**
   * Round trip through a tool that echoes its payload as JSON text: with no
   * extra argument, a tool without an object schema gives the piped value
   * back unchanged, and one with an object schema gives it back wrapped
   * under the schema's first key.
   */
  lemma EchoRoundTrip(tool: Tool, value: Value, parse: JsonParse, serialize: Value -> string)
    requires forall p :: tool.invoke(p) == Success(TextOut(serialize(p)))
    requires forall p :: parse(serialize(p)) == Some(p)
    ensures tool.schema.OtherSchema? ==> ApplyFilter(tool, value, [], parse) == Success(value)
    ensures tool.schema.ZodObject? ==>
      ApplyFilter(tool, value, [], parse) == Success(Obj([(ExpectedKey(tool.schema.shapeKeys), value)]))
  {
    var p := Payload(value, [], tool.schema);
    assert tool.invoke(p) == Success(TextOut(serialize(p)));
    assert parse(serialize(p)) == Some(p);
  }
}
