/**
 * Redaction of values before they are logged
 * (api-gateway/src/common/utils/sanitize.util.ts:13-97).
 *
 * A value is what the function can see of it: own enumerable properties in
 * order, array items, and primitives it only passes on.
 */
module Redaction {
  import opened Strings

  const MAX_DEPTH: nat := 5

  const SENSITIVE_KEYS := [
    "password", "passwd", "pwd", "secret", "token", "apikey", "api_key", "authorization", "auth", "cookie", "cookies",
    "credentials", "credential", "privatekey", "private_key", "accesskey", "access_key", "secretkey", "secret_key",
    "sessionid", "session_id", "bearer", "apitoken", "api_token"
  ]

  /** Other stands for numbers, booleans, functions and the rest of what typeof does not call an object. */
  datatype Primitive = Text(text: string) | Other(id: int)

  datatype Value =
    | Undefined
    | Null
    | Leaf(primitive: Primitive)
    | Arr(items: seq<Value>)
    | Obj(props: seq<Prop>)

  datatype Prop = Prop(key: string, value: Value)

  const REDACTED := Leaf(Text("[REDACTED]"))
  const TOO_DEEP := Leaf(Text("[MAX_DEPTH_EXCEEDED]"))

  predicate IsSensitive(key: string) {
    exists k :: 0 <= k < |SENSITIVE_KEYS| && Includes(Lower(key), SENSITIVE_KEYS[k])
  }

  /** Assigning to this key sets a prototype or nothing at all, never an own property. */
  predicate IsDropped(key: string) {
    key == "__proto__"
  }

  predicate IsContainer(v: Value) {
    v.Arr? || v.Obj?
  }

  // ---- The function ----

  function Sanitize(v: Value, depth: nat): Value
    decreases v, 1
  {
    if depth > MAX_DEPTH then TOO_DEEP
    else
      match v
      case Arr(items) => Arr(SanitizeItems(items, depth + 1))
      case Obj(props) => Obj(SanitizeProps(props, depth + 1))
      case _ => v
  }

  function SanitizeItems(items: seq<Value>, depth: nat): (r: seq<Value>)
    ensures |r| == |items| && forall i :: 0 <= i < |items| ==> r[i] == Sanitize(items[i], depth)
    decreases items, 0
  {
    if items == [] then [] else [Sanitize(items[0], depth)] + SanitizeItems(items[1..], depth)
  }

  function SanitizeProp(p: Prop, depth: nat): Value
    decreases p, 0
  {
    if IsSensitive(p.key) then REDACTED
    else if IsContainer(p.value) then Sanitize(p.value, depth)
    else p.value
  }

  function SanitizeProps(props: seq<Prop>, depth: nat): seq<Prop>
    decreases props, 0
  {
    if props == [] then []
    else
      var rest := SanitizeProps(props[1..], depth);
      if IsDropped(props[0].key) then rest
      else [Prop(props[0].key, SanitizeProp(props[0], depth))] + rest
  }

  lemma {:induction false} SanitizePropsConcat(ps: seq<Prop>, qs: seq<Prop>, depth: nat)
    ensures SanitizeProps(ps + qs, depth) == SanitizeProps(ps, depth) + SanitizeProps(qs, depth)
  {
    if ps == [] {
      assert ps + qs == qs;
    } else {
      assert (ps + qs)[1..] == ps[1..] + qs;
      SanitizePropsConcat(ps[1..], qs, depth);
    }
  }

  // ---- The code: map over arrays, a loop that fills an object ----

  method SanitizeValue(v: Value, depth: nat) returns (r: Value)
    ensures r == Sanitize(v, depth)
    decreases v, 1
  {
    if depth > MAX_DEPTH {
      return TOO_DEEP;
    }
    match v {
      case Arr(items) =>
        var mapped: seq<Value> := [];
        for i := 0 to |items|
          invariant |mapped| == i
          invariant forall j :: 0 <= j < i ==> mapped[j] == Sanitize(items[j], depth + 1)
        {
          var item := SanitizeValue(items[i], depth + 1);
          mapped := mapped + [item];
        }
        assert mapped == SanitizeItems(items, depth + 1);
        r := Arr(mapped);
      case Obj(props) =>
        var sanitized := SanitizeObject(props, depth);
        r := Obj(sanitized);
      case _ =>
        r := v;
    }
  }

  method SanitizeObject(props: seq<Prop>, depth: nat) returns (sanitized: seq<Prop>)
    requires depth <= MAX_DEPTH
    ensures sanitized == SanitizeProps(props, depth + 1)
    decreases props, 0
  {
    sanitized := [];
    for i := 0 to |props|
      invariant sanitized == SanitizeProps(props[..i], depth + 1)
    {
      var p := props[i];
      var value := p.value;
      if IsSensitive(p.key) {
        value := REDACTED;
      } else if IsContainer(p.value) {
        value := SanitizeValue(p.value, depth + 1);
      }
      if !IsDropped(p.key) {
        sanitized := sanitized + [Prop(p.key, value)];
      }
      SanitizePropsConcat(props[..i], [p], depth + 1);
      assert props[..i + 1] == props[..i] + [p];
      assert SanitizeProps([p], depth + 1)
          == if IsDropped(p.key) then [] else [Prop(p.key, SanitizeProp(p, depth + 1))];
    }
    assert props[..|props|] == props;
  }
}
