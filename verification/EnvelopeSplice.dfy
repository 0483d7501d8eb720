/**
 The text of an envelope.  The begin script cannot re-encode JSON, so Python sends it everything
 after one runtime field and the script only writes that field in front.  This module proves that
 the spliced text is exactly the envelope with that field set, and that whatever chain of starts,
 deferrals, retries and failures a message goes through, the text of its payload never changes.
 Values are kept as text, so any decoder of the payload sees the same bytes.
 */
module EnvelopeSplice {
  import opened Prelude

  datatype Field = Field(name: string, value: string)

  // ---------- Values as text ----------

  /** Where a reader is inside a JSON value. */
  datatype Scan = Scan(depth: nat, quoted: bool, escaped: bool)

  const TOP := Scan(0, false, false)

  function Read(s: Scan, c: char): Scan {
    if s.quoted then
      if s.escaped then s.(escaped := false)
      else if c == '\\' then s.(escaped := true)
      else if c == '\"' then s.(quoted := false)
      else s
    else if c == '\"' then s.(quoted := true)
    else if c == '[' || c == '{' then s.(depth := s.depth + 1)
    else if (c == ']' || c == '}') && s.depth > 0 then s.(depth := s.depth - 1)
    else s
  }

  /** A comma or closing brace outside every string and bracket ends the value. */
  predicate Ends(s: Scan, c: char) {
    s == TOP && (c == ',' || c == '}')
  }

  /** A text that is one value: it ends where it started and nothing before ends it. */
  predicate ValueFrom(s: Scan, v: string)
    decreases |v|
  {
    if v == [] then s == TOP else !Ends(s, v[0]) && ValueFrom(Read(s, v[0]), v[1..])
  }

  /** The value at the front of a text, and what follows it. */
  function TakeValue(s: Scan, t: string): (r: (string, string))
    ensures |r.0| + |r.1| == |t|
    decreases |t|
  {
    if t == [] || Ends(s, t[0]) then ([], t)
    else
      var (v, rest) := TakeValue(Read(s, t[0]), t[1..]);
      ([t[0]] + v, rest)
  }

  lemma {:induction false} TakeValueFindsIt(s: Scan, v: string, rest: string)
    requires ValueFrom(s, v) && rest != [] && Ends(TOP, rest[0])
    ensures TakeValue(s, v + rest) == (v, rest)
    decreases |v|
  {
    if v == [] {
      assert v + rest == rest;
    } else {
      assert (v + rest)[0] == v[0] && (v + rest)[1..] == v[1..] + rest;
      TakeValueFindsIt(Read(s, v[0]), v[1..], rest);
      assert [v[0]] + v[1..] == v;
    }
  }

  // ---------- Objects as text ----------

  /** Field names are plain identifiers. */
  predicate FieldOk(f: Field) {
    '\"' !in f.name && f.value != [] && ValueFrom(TOP, f.value)
  }

  predicate EnvelopeOk(env: seq<Field>) {
    (forall f <- env :: FieldOk(f)) && forall i, j :: 0 <= i < j < |env| ==> env[i].name != env[j].name
  }

  function PrintField(f: Field): string {
    "\"" + f.name + "\":" + f.value
  }

  function PrintFields(env: seq<Field>): string {
    if env == [] then []
    else if |env| == 1 then PrintField(env[0])
    else PrintField(env[0]) + "," + PrintFields(env[1..])
  }

  /** The encoder: fields in order, separated by commas, with no blanks. */
  function Encode(env: seq<Field>): string {
    "{" + PrintFields(env) + "}"
  }

  function TakeName(t: string): (r: (string, string))
    ensures |r.0| + |r.1| == |t|
  {
    if t == [] || t[0] == '\"' then ([], t)
    else
      var (n, rest) := TakeName(t[1..]);
      ([t[0]] + n, rest)
  }

  lemma {:induction false} TakeNameFindsIt(n: string, rest: string)
    requires '\"' !in n && rest != [] && rest[0] == '\"'
    ensures TakeName(n + rest) == (n, rest)
  {
    if n == [] {
      assert n + rest == rest;
    } else {
      assert (n + rest)[0] == n[0] && (n + rest)[1..] == n[1..] + rest;
      TakeNameFindsIt(n[1..], rest);
      assert [n[0]] + n[1..] == n;
    }
  }

  /** A reader of the fields of an object, up to its closing brace. */
  function ParseFields(t: string): Option<seq<Field>>
    decreases |t|
  {
    if t == [] || t[0] != '\"' then None
    else
      var (name, afterName) := TakeName(t[1..]);
      if |afterName| < 2 || afterName[1] != ':' then None
      else
        var (value, rest) := TakeValue(TOP, afterName[2..]);
        if rest == [] then None
        else if rest == "}" then Some([Field(name, value)])
        else if rest[0] != ',' then None
        else
          match ParseFields(rest[1..])
          case None => None
          case Some(fields) => Some([Field(name, value)] + fields)
  }

  function Decode(t: string): Option<seq<Field>> {
    if t == "{}" then Some([]) else if t != [] && t[0] == '{' then ParseFields(t[1..]) else None
  }

  lemma ParseOne(f: Field, rest: string)
    requires FieldOk(f) && rest != [] && Ends(TOP, rest[0])
    ensures ParseFields(PrintField(f) + rest) ==
      if rest == "}" then Some([f])
      else if rest[0] != ',' then None
      else match ParseFields(rest[1..])
        case None => None
        case Some(fields) => Some([f] + fields)
  {
    var t := PrintField(f) + rest;
    var tail := "\":" + f.value + rest;
    assert t[0] == '\"' && t[1..] == f.name + tail;
    TakeNameFindsIt(f.name, tail);
    assert tail[1] == ':' && tail[2..] == f.value + rest;
    TakeValueFindsIt(TOP, f.value, rest);
  }

  lemma {:induction false} ParsePrinted(env: seq<Field>)
    requires env != [] && forall f <- env :: FieldOk(f)
    ensures ParseFields(PrintFields(env) + "}") == Some(env)
  {
    if |env| == 1 {
      ParseOne(env[0], "}");
      assert env == [env[0]];
    } else {
      var after := PrintFields(env[1..]) + "}";
      JoinTexts(PrintField(env[0]), ",", PrintFields(env[1..]), "}");
      ParsePrinted(env[1..]);
      ParseOne(env[0], "," + after);
      assert ("," + after)[1..] == after;
      assert env == [env[0]] + env[1..];
    }
  }

  /** Decoding gives back what was encoded. */
  lemma DecodeEncode(env: seq<Field>)
    requires forall f <- env :: FieldOk(f)
    ensures Decode(Encode(env)) == Some(env)
  {
    var t := Encode(env);
    if env == [] {
      assert t == "{}";
    } else {
      assert t[1..] == PrintFields(env) + "}";
      assert t[1] == PrintField(env[0])[0] == '\"';
      ParsePrinted(env);
    }
  }

  // ---------- Dictionaries ----------

  function Get(env: seq<Field>, name: string): Option<string> {
    if env == [] then None
    else if env[0].name == name then Some(env[0].value)
    else Get(env[1..], name)
  }

  /** dict.pop. */
  function Pop(env: seq<Field>, name: string): seq<Field> {
    if env == [] then []
    else if env[0].name == name then Pop(env[1..], name)
    else [env[0]] + Pop(env[1..], name)
  }

  /** Assignment to a dict: in place, or at the end. */
  function Set(env: seq<Field>, f: Field): seq<Field> {
    if env == [] then [f]
    else if env[0].name == f.name then [f] + env[1..]
    else [env[0]] + Set(env[1..], f)
  }

  function Update(env: seq<Field>, changes: seq<Field>): seq<Field>
    decreases |changes|
  {
    if changes == [] then env else Update(Set(env, changes[0]), changes[1..])
  }

  predicate Has(env: seq<Field>, name: string) {
    exists f :: f in env && f.name == name
  }

  lemma ConsOk(f: Field, rest: seq<Field>)
    ensures EnvelopeOk([f] + rest) <==> FieldOk(f) && EnvelopeOk(rest) && !Has(rest, f.name)
    ensures forall n :: Get([f] + rest, n) == if f.name == n then Some(f.value) else Get(rest, n)
  {
    var env := [f] + rest;
    assert env[1..] == rest;
    assert forall g :: g in env <==> g == f || g in rest;
    if EnvelopeOk(env) {
      forall i, j | 0 <= i < j < |rest| ensures rest[i].name != rest[j].name {
        assert env[i + 1] == rest[i] && env[j + 1] == rest[j];
      }
      forall g <- rest ensures g.name != f.name {
        var i :| 0 <= i < |rest| && rest[i] == g;
        assert env[i + 1] == g && env[0] == f;
      }
    }
    if FieldOk(f) && EnvelopeOk(rest) && !Has(rest, f.name) {
      forall i, j | 0 <= i < j < |env| ensures env[i].name != env[j].name {
        assert env[j] == rest[j - 1] && rest[j - 1] in rest;
        if i > 0 { assert env[i] == rest[i - 1]; }
      }
    }
  }

  lemma {:induction false} PopIs(env: seq<Field>, name: string, other: string)
    requires EnvelopeOk(env)
    ensures EnvelopeOk(Pop(env, name)) && !Has(Pop(env, name), name)
    ensures Get(Pop(env, name), other) == if other == name then None else Get(env, other)
    ensures forall f :: f in Pop(env, name) ==> f in env
  {
    if env != [] {
      assert env == [env[0]] + env[1..];
      ConsOk(env[0], env[1..]);
      PopIs(env[1..], name, other);
      if env[0].name != name { ConsOk(env[0], Pop(env[1..], name)); }
    }
  }

  lemma {:induction false} SetIs(env: seq<Field>, f: Field, other: string)
    requires EnvelopeOk(env) && FieldOk(f)
    ensures EnvelopeOk(Set(env, f)) && Set(env, f) != []
    ensures Get(Set(env, f), other) == if other == f.name then Some(f.value) else Get(env, other)
    ensures forall g :: g in Set(env, f) ==> g == f || g in env
  {
    if env == [] {
      assert [f] + [] == [f];
      ConsOk(f, []);
    } else {
      assert env == [env[0]] + env[1..];
      ConsOk(env[0], env[1..]);
      if env[0].name == f.name {
        ConsOk(f, env[1..]);
      } else {
        SetIs(env[1..], f, other);
        ConsOk(env[0], Set(env[1..], f));
      }
    }
  }

  lemma {:induction false} UpdateIs(env: seq<Field>, changes: seq<Field>, other: string)
    requires EnvelopeOk(env) && forall f <- changes :: FieldOk(f)
    ensures EnvelopeOk(Update(env, changes)) && (env != [] ==> Update(env, changes) != [])
    ensures !Has(changes, other) ==> Get(Update(env, changes), other) == Get(env, other)
    decreases |changes|
  {
    if changes != [] {
      SetIs(env, changes[0], other);
      assert changes[0] in changes && forall f <- changes[1..] :: f in changes;
      UpdateIs(Set(env, changes[0]), changes[1..], other);
    }
  }

  // ---------- The splice ----------

  /** runtime_tail: everything of the new envelope after the runtime field. */
  function RuntimeTail(env: seq<Field>, name: string, changes: seq<Field>): string {
    "," + Encode(Pop(Update(env, changes), name))[1..]
  }

  /** What the script writes: the runtime field in front of the tail. */
  function Splice(name: string, value: string, tail: string): string {
    "{\"" + name + "\":" + value + tail
  }

  /** The envelope the splice stands for: the runtime field first, then the others in order. */
  function Spliced(env: seq<Field>, name: string, value: string, changes: seq<Field>): seq<Field> {
    [Field(name, value)] + Pop(Update(env, changes), name)
  }

  lemma SpliceBefore(f: Field, rest: seq<Field>)
    requires rest != []
    ensures Splice(f.name, f.value, "," + Encode(rest)[1..]) == Encode([f] + rest)
  {
    var env := [f] + rest;
    assert env[1..] == rest && env[0] == f;
    var p := PrintFields(rest);
    assert ("{" + p + "}")[1..] == p + "}";
    JoinTexts("{\"" + f.name + "\":" + f.value, ",", p, "}");
    assert "{\"" + f.name + "\":" + f.value == "{" + PrintField(f);
    JoinTexts("{", PrintField(f), ",", p);
  }

  lemma JoinTexts(a: string, b: string, c: string, d: string)
    ensures a + (b + (c + d)) == ((a + b) + c) + d
    ensures a + ((b + c) + d) == ((a + b) + c) + d
  {
  }

  /** With no other field left the script would leave a comma before the closing brace. */
  lemma SpliceAlone(f: Field)
    requires FieldOk(f)
    ensures var text := Splice(f.name, f.value, "," + Encode([])[1..]); Decode(text).None? && text != Encode([f])
  {
    var text, tail := Splice(f.name, f.value, "," + Encode([])[1..]), ",}";
    assert Encode([]) == "{}" && "," + "{}"[1..] == tail;
    assert text[1..] == PrintField(f) + tail && tail[1..] == "}";
    assert text[0] == '{' && text[1] == PrintField(f)[0] == '\"';
    ParseOne(f, tail);
    DecodeEncode([f]);
  }

  /** The spliced text is the encoding of the new envelope if and only if another field is left. */
  lemma SpliceIsEncode(env: seq<Field>, name: string, value: string, changes: seq<Field>)
    requires EnvelopeOk(env) && FieldOk(Field(name, value)) && forall f <- changes :: FieldOk(f)
    ensures var text := Splice(name, value, RuntimeTail(env, name, changes));
      var env' := Spliced(env, name, value, changes);
      && EnvelopeOk(env')
      && (text == Encode(env') <==> |env'| > 1)
      && Decode(text) == (if |env'| > 1 then Some(env') else None)
  {
    var rest, f := Pop(Update(env, changes), name), Field(name, value);
    UpdateIs(env, changes, name);
    PopIs(Update(env, changes), name, name);
    ConsOk(f, rest);
    if rest != [] {
      SpliceBefore(f, rest);
      DecodeEncode([f] + rest);
    } else {
      assert [f] + rest == [f];
      SpliceAlone(f);
    }
  }

  // ---------- A message over its life ----------

  /**
   What the queue does to the text of a message: a start or deferral drops the old lease token, makes
   some changes and splices one field; a retry or failure decodes, changes and encodes.
   */
  datatype Rewrite =
    | Runtime(name: string, value: string, changes: seq<Field>)
    | Recode(changes: seq<Field>)

  const RUNTIME := ["attempt", "available_at", "delay_reason", "claim_token", "lease_token", "last_error"]

  predicate RewriteOk(w: Rewrite) {
    && (forall f <- w.changes :: FieldOk(f) && f.name in RUNTIME)
    && (w.Runtime? ==> FieldOk(Field(w.name, w.value)) && w.name in RUNTIME)
  }

  /** The next text of a message, or nothing where it cannot be read. */
  function Rewritten(text: string, w: Rewrite): Option<string> {
    match Decode(text)
    case None => None
    case Some(env) =>
      match w
      case Runtime(name, value, changes) =>
        Some(Splice(name, value, RuntimeTail(Pop(env, "lease_token"), name, changes)))
      case Recode(changes) => Some(Encode(Update(env, changes)))
  }

  function RewriteAll(text: string, ws: seq<Rewrite>): Option<string>
    decreases |ws|
  {
    if ws == [] then Some(text)
    else
      match Rewritten(text, ws[0])
      case None => None
      case Some(next) => RewriteAll(next, ws[1..])
  }

  /** A text that reads as an envelope with that payload. */
  predicate Carries(text: string, payload: string) {
    var d := Decode(text);
    d.Some? && EnvelopeOk(d.value) && Get(d.value, "payload") == Some(payload)
  }

  lemma RewriteKeepsPayload(text: string, w: Rewrite, payload: string)
    requires Carries(text, payload) && RewriteOk(w)
    ensures Rewritten(text, w).Some? && Carries(Rewritten(text, w).value, payload)
  {
    var env := Decode(text).value;
    assert "payload" !in RUNTIME;
    assert !Has(w.changes, "payload");
    if w.Runtime? {
      var bare := Pop(env, "lease_token");
      PopIs(env, "lease_token", "payload");
      UpdateIs(bare, w.changes, "payload");
      PopIs(Update(bare, w.changes), w.name, "payload");
      SpliceIsEncode(bare, w.name, w.value, w.changes);
      var rest := Pop(Update(bare, w.changes), w.name);
      assert Get(rest, "payload") == Some(payload);
      assert ([Field(w.name, w.value)] + rest)[1..] == rest;
    } else {
      UpdateIs(env, w.changes, "payload");
      DecodeEncode(Update(env, w.changes));
    }
  }

  /** After any chain of starts, deferrals, retries and failures the payload's text is what was enqueued. */
  lemma {:induction false} PayloadSurvives(text: string, ws: seq<Rewrite>, payload: string)
    requires Carries(text, payload) && forall w <- ws :: RewriteOk(w)
    ensures RewriteAll(text, ws).Some? && Carries(RewriteAll(text, ws).value, payload)
    decreases |ws|
  {
    if ws != [] {
      RewriteKeepsPayload(text, ws[0], payload);
      PayloadSurvives(Rewritten(text, ws[0]).value, ws[1..], payload);
    }
  }
}
