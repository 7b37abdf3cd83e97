/** What redaction hides, what it keeps, and that doing it twice changes nothing. */
module RedactionTheorems {
  import opened Numbers
  import opened Options
  import opened Strings
  import opened Redaction

  // ---- Secrets do not interfere ----

  /** a and b differ at most under sensitive keys, in what is dropped, and below the depth limit. */
  ghost predicate SameBut(a: Value, b: Value, depth: nat)
    decreases a, 1
  {
    depth > MAX_DEPTH || (
      if a.Arr? && b.Arr? then SameItems(a.items, b.items, depth + 1)
      else if a.Obj? && b.Obj? then SameProps(a.props, b.props, depth + 1)
      else a == b)
  }

  ghost predicate SameItems(xs: seq<Value>, ys: seq<Value>, depth: nat)
    decreases xs, 0
  {
    |xs| == |ys| && (xs == [] || (SameBut(xs[0], ys[0], depth) && SameItems(xs[1..], ys[1..], depth)))
  }

  ghost predicate SameProps(ps: seq<Prop>, qs: seq<Prop>, depth: nat)
    decreases ps, 0
  {
    |ps| == |qs| && (ps == [] || (
      && ps[0].key == qs[0].key
      && (IsSensitive(ps[0].key) || IsDropped(ps[0].key)
          || (if IsContainer(ps[0].value) && IsContainer(qs[0].value) then SameBut(ps[0].value, qs[0].value, depth)
              else ps[0].value == qs[0].value))
      && SameProps(ps[1..], qs[1..], depth)))
  }

  lemma {:induction false} SecretsDoNotInterfere(a: Value, b: Value, depth: nat)
    requires SameBut(a, b, depth)
    ensures Sanitize(a, depth) == Sanitize(b, depth)
    decreases a, 1
  {
    if depth <= MAX_DEPTH {
      if a.Arr? && b.Arr? {
        SecretItemsDoNotInterfere(a.items, b.items, depth + 1);
      } else if a.Obj? && b.Obj? {
        SecretPropsDoNotInterfere(a.props, b.props, depth + 1);
      }
    }
  }

  lemma {:induction false} SecretItemsDoNotInterfere(xs: seq<Value>, ys: seq<Value>, depth: nat)
    requires SameItems(xs, ys, depth)
    ensures SanitizeItems(xs, depth) == SanitizeItems(ys, depth)
    decreases xs, 0
  {
    if xs != [] {
      SecretsDoNotInterfere(xs[0], ys[0], depth);
      SecretItemsDoNotInterfere(xs[1..], ys[1..], depth);
    }
  }

  lemma {:induction false} SecretPropsDoNotInterfere(ps: seq<Prop>, qs: seq<Prop>, depth: nat)
    requires SameProps(ps, qs, depth)
    ensures SanitizeProps(ps, depth) == SanitizeProps(qs, depth)
    decreases ps, 0
  {
    if ps != [] {
      if !IsSensitive(ps[0].key) && !IsDropped(ps[0].key) && IsContainer(ps[0].value) && IsContainer(qs[0].value) {
        SecretsDoNotInterfere(ps[0].value, qs[0].value, depth);
      }
      SecretPropsDoNotInterfere(ps[1..], qs[1..], depth);
    }
  }

  // ---- Nothing else is lost ----

  /** No text that could be taken for a marker, and no key that would be dropped. */
  ghost predicate Plain(v: Value)
    decreases v, 1
  {
    match v
    case Arr(items) => PlainItems(items)
    case Obj(props) => PlainProps(props)
    case _ => v != REDACTED && v != TOO_DEEP
  }

  ghost predicate PlainItems(items: seq<Value>)
    decreases items, 0
  {
    items == [] || (Plain(items[0]) && PlainItems(items[1..]))
  }

  ghost predicate PlainProps(props: seq<Prop>)
    decreases props, 0
  {
    props == [] || (!IsDropped(props[0].key) && Plain(props[0].value) && PlainProps(props[1..]))
  }

  lemma {:induction false} NothingElseIsLost(a: Value, b: Value, depth: nat)
    requires Plain(a) && Plain(b) && Sanitize(a, depth) == Sanitize(b, depth)
    ensures SameBut(a, b, depth)
    decreases a, 1
  {
    if depth <= MAX_DEPTH {
      if a.Arr? && b.Arr? {
        NoOtherItemIsLost(a.items, b.items, depth + 1);
      } else if a.Obj? && b.Obj? {
        NoOtherPropIsLost(a.props, b.props, depth + 1);
      }
    }
  }

  lemma {:induction false} NoOtherItemIsLost(xs: seq<Value>, ys: seq<Value>, depth: nat)
    requires PlainItems(xs) && PlainItems(ys) && SanitizeItems(xs, depth) == SanitizeItems(ys, depth)
    ensures SameItems(xs, ys, depth)
    decreases xs, 0
  {
    assert |xs| == |SanitizeItems(xs, depth)| == |ys|;
    if xs != [] {
      assert SanitizeItems(xs, depth)[1..] == SanitizeItems(xs[1..], depth);
      assert SanitizeItems(ys, depth)[1..] == SanitizeItems(ys[1..], depth);
      assert SanitizeItems(xs, depth)[0] == SanitizeItems(ys, depth)[0];
      NothingElseIsLost(xs[0], ys[0], depth);
      NoOtherItemIsLost(xs[1..], ys[1..], depth);
    }
  }

  lemma {:induction false} NoOtherPropIsLost(ps: seq<Prop>, qs: seq<Prop>, depth: nat)
    requires PlainProps(ps) && PlainProps(qs) && SanitizeProps(ps, depth) == SanitizeProps(qs, depth)
    ensures SameProps(ps, qs, depth)
    decreases ps, 0
  {
    if ps != [] && qs != [] {
      var sp, sq := SanitizeProps(ps, depth), SanitizeProps(qs, depth);
      assert sp[1..] == SanitizeProps(ps[1..], depth) && sq[1..] == SanitizeProps(qs[1..], depth);
      assert sp[0] == Prop(ps[0].key, SanitizeProp(ps[0], depth));
      assert sq[0] == Prop(qs[0].key, SanitizeProp(qs[0], depth));
      assert ps[0].key == qs[0].key && SanitizeProp(ps[0], depth) == SanitizeProp(qs[0], depth);
      if !IsSensitive(ps[0].key) && IsContainer(ps[0].value) && IsContainer(qs[0].value) {
        NothingElseIsLost(ps[0].value, qs[0].value, depth);
      }
      NoOtherPropIsLost(ps[1..], qs[1..], depth);
    }
  }

  /** Two plain values look alike in the log exactly when they differ in secrets, or too deep down, alone. */
  lemma LogShowsExactly(a: Value, b: Value)
    requires Plain(a) && Plain(b)
    ensures Sanitize(a, 0) == Sanitize(b, 0) <==> SameBut(a, b, 0)
  {
    if SameBut(a, b, 0) {
      SecretsDoNotInterfere(a, b, 0);
    }
    if Sanitize(a, 0) == Sanitize(b, 0) {
      NothingElseIsLost(a, b, 0);
    }
  }

  // ---- Where things are afterwards ----

  datatype Step = Index(i: nat) | Key(key: string)

  function Find(props: seq<Prop>, key: string): Option<Value> {
    if props == [] then None else if props[0].key == key then Some(props[0].value) else Find(props[1..], key)
  }

  function Follow(v: Value, path: seq<Step>): Option<Value>
    decreases path
  {
    if path == [] then Some(v)
    else
      match path[0]
      case Index(i) => if v.Arr? && i < |v.items| then Follow(v.items[i], path[1..]) else None
      case Key(key) => if v.Obj? && Find(v.props, key).Some? then Follow(Find(v.props, key).value, path[1..]) else None
  }

  ghost predicate Public(path: seq<Step>) {
    forall i :: 0 <= i < |path| && path[i].Key? ==> !IsSensitive(path[i].key) && path[i].key != "__proto__"
  }

  lemma {:induction false} FindSanitized(props: seq<Prop>, key: string, depth: nat)
    requires !IsDropped(key)
    ensures Find(SanitizeProps(props, depth), key)
         == if Find(props, key).None? then None else Some(SanitizeProp(Prop(key, Find(props, key).value), depth))
  {
    if props != [] {
      FindSanitized(props[1..], key, depth);
      if !IsDropped(props[0].key) {
        var head := Prop(props[0].key, SanitizeProp(props[0], depth));
        assert SanitizeProps(props, depth)[1..] == SanitizeProps(props[1..], depth);
        assert SanitizeProps(props, depth)[0] == head;
      }
    }
  }

  predicate EndsInKey(path: seq<Step>) {
    path != [] && path[|path| - 1].Key?
  }

  lemma FollowKey(v: Value, path: seq<Step>, depth: nat)
    requires path != [] && path[0].Key? && depth <= MAX_DEPTH
    requires !IsSensitive(path[0].key) && !IsDropped(path[0].key)
    ensures Follow(Sanitize(v, depth), path)
         == if !v.Obj? || Find(v.props, path[0].key).None? then None
            else var x := Find(v.props, path[0].key).value;
                 Follow(if IsContainer(x) then Sanitize(x, depth + 1) else x, path[1..])
  {
    if v.Obj? {
      FindSanitized(v.props, path[0].key, depth + 1);
    }
  }

  /** What the result shows of a value that was found `there` containers deep, at the end of a public path. */
  function Shown(found: Value, there: nat, underKey: bool): Option<Value> {
    if there > 6 then None
    else if there == 6 && (!underKey || found.Arr? || found.Obj?) then Some(Leaf(Text("[MAX_DEPTH_EXCEEDED]")))
    else if found.Arr? || found.Obj? then Some(Sanitize(found, there))
    else Some(found)
  }

  /**
   * Along a path without sensitive keys redaction leaves the redacted value in
   * place within the limit.  One step further a container and any array item
   * give way to the marker, but what is no container stays under its key; and
   * nothing is left beyond that.
   */
  lemma {:induction false} PublicPathsAreKept(v: Value, path: seq<Step>, depth: nat)
    requires Public(path) && depth <= 6
    ensures var found := Follow(v, path);
            Follow(Sanitize(v, depth), path)
              == if found.None? then None else Shown(found.value, depth + |path|, EndsInKey(path))
    decreases path
  {
    if path != [] && depth <= MAX_DEPTH {
      match path[0] {
        case Index(i) =>
          if v.Arr? && i < |v.items| {
            PublicPathsAreKept(v.items[i], path[1..], depth + 1);
          }
        case Key(key) =>
          assert !IsSensitive(path[0].key) && !IsDropped(path[0].key);
          FollowKey(v, path, depth);
          if v.Obj? && Find(v.props, key).Some? && IsContainer(Find(v.props, key).value) {
            PublicPathsAreKept(Find(v.props, key).value, path[1..], depth + 1);
          }
      }
    }
  }

  /** A sensitive key anywhere on the way out of such a path shows the marker and nothing of its value. */
  lemma SecretsAreMarked(v: Value, path: seq<Step>, key: string)
    requires Public(path) && |path| <= 5 && IsSensitive(key) && key != "__proto__"
    requires Follow(v, path).Some? && Follow(v, path).value.Obj?
    ensures var there := Follow(Sanitize(v, 0), path);
            && there.Some? && there.value.Obj?
            && Find(there.value.props, key)
               == if Find(Follow(v, path).value.props, key).None? then None else Some(Leaf(Text("[REDACTED]")))
  {
    PublicPathsAreKept(v, path, 0);
    FindSanitized(Follow(v, path).value.props, key, |path| + 1);
  }

  function Keys(props: seq<Prop>): seq<string> {
    if props == [] then [] else [props[0].key] + Keys(props[1..])
  }

  /** The keys of an object survive in order exactly when none of them is one that cannot be assigned. */
  lemma {:induction false} KeysAreKeptIff(props: seq<Prop>, depth: nat)
    ensures |Keys(SanitizeProps(props, depth))| <= |Keys(props)|
    ensures Keys(SanitizeProps(props, depth)) == Keys(props) <==> forall p :: p in props ==> p.key != "__proto__"
  {
    if props != [] {
      KeysAreKeptIff(props[1..], depth);
      assert props == [props[0]] + props[1..];
      assert Keys(props)[1..] == Keys(props[1..]);
      if !IsDropped(props[0].key) {
        assert SanitizeProps(props, depth)[1..] == SanitizeProps(props[1..], depth);
        assert Keys(SanitizeProps(props, depth))[1..] == Keys(SanitizeProps(props[1..], depth));
      }
    }
  }

  // ---- Which keys are sensitive ----

  lemma TermMentioned(key: string, k: nat)
    requires k < |SENSITIVE_KEYS|
    ensures Includes(Lower(key), SENSITIVE_KEYS[k]) <==> Mentions(key, SENSITIVE_KEYS[k])
  {
    assert IsLower(SENSITIVE_KEYS[k]);
    MentionsIff(key, SENSITIVE_KEYS[k]);
  }

  /** A key is sensitive exactly when one of these terms stands somewhere in it, letter by letter, in any capitals. */
  lemma SensitiveIff(key: string)
    ensures IsSensitive(key) <==> exists k :: 0 <= k < 24 && Mentions(key, [
              "password", "passwd", "pwd", "secret", "token", "apikey", "api_key", "authorization", "auth", "cookie",
              "cookies", "credentials", "credential", "privatekey", "private_key", "accesskey", "access_key",
              "secretkey", "secret_key", "sessionid", "session_id", "bearer", "apitoken", "api_token"][k])
  {
    forall k | 0 <= k < |SENSITIVE_KEYS|
      ensures Includes(Lower(key), SENSITIVE_KEYS[k]) <==> Mentions(key, SENSITIVE_KEYS[k])
    {
      TermMentioned(key, k);
    }
  }

  /** So wherever such a term is put into a key, in whatever capitals, the key is sensitive. */
  lemma TermsCountAnywhere(before: string, middle: string, after: string, k: nat)
    requires k < |SENSITIVE_KEYS| && |middle| == |SENSITIVE_KEYS[k]| && StandsAt(middle, 0, SENSITIVE_KEYS[k])
    ensures IsSensitive(before + middle + after)
  {
    var key := before + middle + after;
    forall j | 0 <= j < |middle|
      ensures ReadsAs(key[|before| + j], SENSITIVE_KEYS[k][j])
    {
      assert key[|before| + j] == middle[0 + j];
    }
    assert StandsAt(key, |before|, SENSITIVE_KEYS[k]);
    TermMentioned(key, k);
  }

  // ---- Twice is once, and the result is shallow ----

  lemma {:induction false} TwiceIsOnce(v: Value, depth: nat)
    ensures Sanitize(Sanitize(v, depth), depth) == Sanitize(v, depth)
    decreases v, 1
  {
    if depth <= MAX_DEPTH {
      match v
      case Arr(items) => ItemsTwice(items, depth + 1);
      case Obj(props) => PropsTwice(props, depth + 1);
      case _ =>
    }
  }

  lemma {:induction false} ItemsTwice(items: seq<Value>, depth: nat)
    ensures SanitizeItems(SanitizeItems(items, depth), depth) == SanitizeItems(items, depth)
    decreases items, 0
  {
    forall i | 0 <= i < |items|
      ensures Sanitize(Sanitize(items[i], depth), depth) == Sanitize(items[i], depth)
    {
      TwiceIsOnce(items[i], depth);
    }
  }

  lemma {:induction false} PropsTwice(props: seq<Prop>, depth: nat)
    ensures SanitizeProps(SanitizeProps(props, depth), depth) == SanitizeProps(props, depth)
    decreases props, 0
  {
    if props != [] {
      PropsTwice(props[1..], depth);
      if !IsDropped(props[0].key) {
        var once := SanitizeProps(props, depth);
        assert once[1..] == SanitizeProps(props[1..], depth);
        if !IsSensitive(props[0].key) && IsContainer(props[0].value) {
          TwiceIsOnce(props[0].value, depth);
        }
      }
    }
  }

  /** How many containers are nested in each other. */
  function Nesting(v: Value): nat
    decreases v, 1
  {
    match v
    case Arr(items) => 1 + NestingOfItems(items)
    case Obj(props) => 1 + NestingOfProps(props)
    case _ => 0
  }

  function NestingOfItems(items: seq<Value>): nat
    decreases items, 0
  {
    if items == [] then 0 else Max(Nesting(items[0]), NestingOfItems(items[1..]))
  }

  function NestingOfProps(props: seq<Prop>): nat
    decreases props, 0
  {
    if props == [] then 0 else Max(Nesting(props[0].value), NestingOfProps(props[1..]))
  }

  /** At most six containers are left nested, however deep the value was. */
  lemma {:induction false} ResultIsShallow(v: Value, depth: nat)
    ensures Nesting(Sanitize(v, depth)) <= if depth <= 5 then 6 - depth else 0
    decreases v, 1
  {
    if depth <= MAX_DEPTH {
      match v
      case Arr(items) => ItemsAreShallow(items, depth + 1);
      case Obj(props) => PropsAreShallow(props, depth + 1);
      case _ =>
    }
  }

  lemma {:induction false} ItemsAreShallow(items: seq<Value>, depth: nat)
    ensures NestingOfItems(SanitizeItems(items, depth)) <= if depth <= MAX_DEPTH then MAX_DEPTH + 1 - depth else 0
    decreases items, 0
  {
    if items != [] {
      ResultIsShallow(items[0], depth);
      ItemsAreShallow(items[1..], depth);
      assert SanitizeItems(items, depth)[1..] == SanitizeItems(items[1..], depth);
    }
  }

  lemma {:induction false} PropsAreShallow(props: seq<Prop>, depth: nat)
    ensures NestingOfProps(SanitizeProps(props, depth)) <= if depth <= MAX_DEPTH then MAX_DEPTH + 1 - depth else 0
    decreases props, 0
  {
    if props != [] {
      PropsAreShallow(props[1..], depth);
      if !IsDropped(props[0].key) {
        assert SanitizeProps(props, depth)[1..] == SanitizeProps(props[1..], depth);
        if IsContainer(props[0].value) {
          ResultIsShallow(props[0].value, depth);
        }
      }
    }
  }
}
