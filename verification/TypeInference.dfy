/** Inferring type arguments (typechecker/typechecker.go) and substituting them
    (types/type.go). */
module TypeInference {
  import opened Language

  /** `isEmpty` marks the type of an empty literal. */
  datatype Type =
    | Basic(name: string)
    | Param(name: string)
    | ArrayOf(elem: Type, isEmpty: bool)
    | MapOf(key: Type, value: Type, isEmpty: bool)
    | ResultOf(t: Type)
    | OptionOf(t: Type)
    | FunctionOf(params: Types, ret: Type)

  datatype Types = NoTypes | Types(head: Type, tail: Types)

  type Bindings = map<string, Type>

  /** SubstituteTypeParams: rebuilt collections are not empty literals. */
  function Substitute(t: Type, subs: Bindings): Type
  {
    match t
    case Basic(_) => t
    case Param(x) => if x in subs then subs[x] else t
    case ArrayOf(e, _) => ArrayOf(Substitute(e, subs), false)
    case MapOf(k, v, _) => MapOf(Substitute(k, subs), Substitute(v, subs), false)
    case ResultOf(u) => ResultOf(Substitute(u, subs))
    case OptionOf(u) => OptionOf(Substitute(u, subs))
    case FunctionOf(ps, r) => FunctionOf(SubstituteAll(ps, subs), Substitute(r, subs))
  }

  function SubstituteAll(ts: Types, subs: Bindings): Types
  {
    match ts case NoTypes => NoTypes case Types(t, rest) => Types(Substitute(t, subs), SubstituteAll(rest, subs))
  }

  /** containsTypeParamRef */
  predicate Generic(t: Type)
  {
    match t
    case Basic(_) => false
    case Param(_) => true
    case ArrayOf(e, _) => Generic(e)
    case MapOf(k, v, _) => Generic(k) || Generic(v)
    case ResultOf(u) => Generic(u)
    case OptionOf(u) => Generic(u)
    case FunctionOf(ps, r) => AnyGeneric(ps) || Generic(r)
  }

  predicate AnyGeneric(ts: Types) { ts.Types? && (Generic(ts.head) || AnyGeneric(ts.tail)) }

  /** The type parameters of a type. */
  function Names(t: Type): set<string>
  {
    match t
    case Basic(_) => {}
    case Param(x) => {x}
    case ArrayOf(e, _) => Names(e)
    case MapOf(k, v, _) => Names(k) + Names(v)
    case ResultOf(u) => Names(u)
    case OptionOf(u) => Names(u)
    case FunctionOf(ps, r) => AllNames(ps) + Names(r)
  }

  function AllNames(ts: Types): set<string>
  {
    match ts case NoTypes => {} case Types(t, rest) => Names(t) + AllNames(rest)
  }

  /** Those in a position that unification looks at: under arrays, maps and results only. */
  function OpenNames(t: Type): (r: set<string>)
    ensures r <= Names(t)
  {
    match t
    case Param(x) => {x}
    case ArrayOf(e, _) => OpenNames(e)
    case MapOf(k, v, _) => OpenNames(k) + OpenNames(v)
    case ResultOf(u) => OpenNames(u)
    case _ => {}
  }

  /** unifyType, as a function of the bindings so far. */
  function Unified(p: Type, arg: Type, subs: Bindings): Bindings
  {
    match p
    case Param(x) => if x in subs then subs else subs[x := arg]
    case ArrayOf(e, _) => if arg.ArrayOf? then Unified(e, arg.elem, subs) else subs
    case MapOf(k, v, _) => if arg.MapOf? then Unified(v, arg.value, Unified(k, arg.key, subs)) else subs
    case ResultOf(u) => if arg.ResultOf? then Unified(u, arg.t, subs) else subs
    case _ => subs
  }

  class Checker {
    var subs: Bindings

    constructor ()
      ensures subs == map[]
    {
      subs := map[];
    }

    /** unifyType: the first type met for a parameter is kept. */
    method UnifyType(p: Type, arg: Type)
      modifies this
      ensures subs == Unified(p, arg, old(subs))
      decreases p
    {
      match p
      case Param(x) => if x !in subs { subs := subs[x := arg]; }
      case ArrayOf(e, _) => if arg.ArrayOf? { UnifyType(e, arg.elem); }
      case MapOf(k, v, _) =>
        if arg.MapOf? {
          UnifyType(k, arg.key);
          UnifyType(v, arg.value);
        }
      case ResultOf(u) => if arg.ResultOf? { UnifyType(u, arg.t); }
      case _ =>
    }
  }

  // ---------- types up to the empty-literal mark ----------

  /** Equal but for the marks of empty literals. */
  predicate Same(a: Type, b: Type)
    decreases a
  {
    match a
    case Basic(_) => a == b
    case Param(_) => a == b
    case ArrayOf(e, _) => b.ArrayOf? && Same(e, b.elem)
    case MapOf(k, v, _) => b.MapOf? && Same(k, b.key) && Same(v, b.value)
    case ResultOf(u) => b.ResultOf? && Same(u, b.t)
    case OptionOf(u) => b.OptionOf? && Same(u, b.t)
    case FunctionOf(ps, r) => b.FunctionOf? && AllSame(ps, b.params) && Same(r, b.ret)
  }

  predicate AllSame(a: Types, b: Types)
    decreases a
  {
    match a case NoTypes => b.NoTypes? case Types(t, rest) => b.Types? && Same(t, b.head) && AllSame(rest, b.tail)
  }

  function Signature(t: Type): string
  {
    match t
    case Basic(x) => x
    case Param(x) => x
    case ArrayOf(e, _) => "array<" + Signature(e) + ">"
    case MapOf(k, v, _) => "map<" + Signature(k) + ", " + Signature(v) + ">"
    case ResultOf(u) => "result<" + Signature(u) + ">"
    case OptionOf(u) => "option<" + Signature(u) + ">"
    case FunctionOf(ps, r) => "func<(" + Signatures(ps) + ") -> " + Signature(r) + ">"
  }

  function Signatures(ts: Types): string
  {
    match ts
    case NoTypes => ""
    case Types(t, NoTypes) => Signature(t)
    case Types(t, rest) => Signature(t) + ", " + Signatures(rest)
  }

  lemma {:induction false} SameSignature(a: Type, b: Type)
    requires Same(a, b)
    ensures Signature(a) == Signature(b)
    decreases a
  {
    match a
    case Basic(_) =>
    case Param(_) =>
    case ArrayOf(e, _) => SameSignature(e, b.elem);
    case MapOf(k, v, _) =>
      SameSignature(k, b.key);
      SameSignature(v, b.value);
    case ResultOf(u) => SameSignature(u, b.t);
    case OptionOf(u) => SameSignature(u, b.t);
    case FunctionOf(ps, r) =>
      SameSignatures(ps, b.params);
      SameSignature(r, b.ret);
  }

  lemma {:induction false} SameSignatures(a: Types, b: Types)
    requires AllSame(a, b)
    ensures Signatures(a) == Signatures(b)
    decreases a
  {
    if a.Types? {
      SameSignature(a.head, b.head);
      SameSignatures(a.tail, b.tail);
    }
  }

  // ---------- what is bound ----------

  /** The bindings are instances of `s`, for exactly the names in `names`. */
  ghost predicate Recovers(subs: Bindings, s: Bindings, names: set<string>)
  {
    subs.Keys == names && names <= s.Keys && forall x :: x in subs ==> Same(s[x], subs[x])
  }

  /** Unifying `p` with an instance of it binds exactly the open parameters of `p`, each to
      what it was instantiated with. */
  lemma {:induction false} UnifyRecovers(p: Type, arg: Type, subs: Bindings, s: Bindings, names: set<string>)
    requires Recovers(subs, s, names) && Names(p) <= s.Keys && Same(Substitute(p, s), arg)
    ensures Recovers(Unified(p, arg, subs), s, names + OpenNames(p))
    decreases p
  {
    match p
    case Basic(_) => assert names + {} == names;
    case Param(x) =>
    case ArrayOf(e, _) => UnifyRecovers(e, arg.elem, subs, s, names);
    case MapOf(k, v, _) =>
      UnifyRecovers(k, arg.key, subs, s, names);
      UnifyRecovers(v, arg.value, Unified(k, arg.key, subs), s, names + OpenNames(k));
      assert names + OpenNames(k) + OpenNames(v) == names + (OpenNames(k) + OpenNames(v));
    case ResultOf(u) => UnifyRecovers(u, arg.t, subs, s, names);
    case OptionOf(_) => assert names + {} == names;
    case FunctionOf(_, _) => assert names + {} == names;
  }

  /** Substitutions that agree on the parameters of a type give the same type. */
  lemma {:induction false} SubstituteSame(p: Type, a: Bindings, b: Bindings)
    requires Names(p) <= a.Keys && Names(p) <= b.Keys && forall x :: x in Names(p) ==> Same(a[x], b[x])
    ensures Same(Substitute(p, a), Substitute(p, b))
    decreases p
  {
    match p
    case Basic(_) =>
    case Param(_) =>
    case ArrayOf(e, _) => SubstituteSame(e, a, b);
    case MapOf(k, v, _) =>
      SubstituteSame(k, a, b);
      SubstituteSame(v, a, b);
    case ResultOf(u) => SubstituteSame(u, a, b);
    case OptionOf(u) => SubstituteSame(u, a, b);
    case FunctionOf(ps, r) =>
      SubstituteAllSame(ps, a, b);
      SubstituteSame(r, a, b);
  }

  lemma {:induction false} SubstituteAllSame(ps: Types, a: Bindings, b: Bindings)
    requires AllNames(ps) <= a.Keys && AllNames(ps) <= b.Keys && forall x :: x in AllNames(ps) ==> Same(a[x], b[x])
    ensures AllSame(SubstituteAll(ps, a), SubstituteAll(ps, b))
    decreases ps
  {
    if ps.Types? {
      SubstituteSame(ps.head, a, b);
      SubstituteAllSame(ps.tail, a, b);
    }
  }

  /** A type with no parameter that is bound stays as it is, up to the marks. */
  lemma {:induction false} Untouched(t: Type, s: Bindings)
    requires Names(t) !! s.Keys
    ensures Same(t, Substitute(t, s))
    decreases t
  {
    match t
    case Basic(_) =>
    case Param(_) =>
    case ArrayOf(e, _) => Untouched(e, s);
    case MapOf(k, v, _) =>
      Untouched(k, s);
      Untouched(v, s);
    case ResultOf(u) => Untouched(u, s);
    case OptionOf(u) => Untouched(u, s);
    case FunctionOf(ps, r) =>
      AllUntouched(ps, s);
      Untouched(r, s);
  }

  lemma {:induction false} AllUntouched(ts: Types, s: Bindings)
    requires AllNames(ts) !! s.Keys
    ensures AllSame(ts, SubstituteAll(ts, s))
    decreases ts
  {
    if ts.Types? {
      Untouched(ts.head, s);
      AllUntouched(ts.tail, s);
    }
  }

  /** A type without parameters has none to bind. */
  lemma {:induction false} GenericNames(t: Type)
    ensures Generic(t) <==> Names(t) != {}
    decreases t
  {
    match t
    case Basic(_) =>
    case Param(x) => assert x in Names(t);
    case ArrayOf(e, _) => GenericNames(e);
    case MapOf(k, v, _) =>
      GenericNames(k);
      GenericNames(v);
    case ResultOf(u) => GenericNames(u);
    case OptionOf(u) => GenericNames(u);
    case FunctionOf(ps, r) =>
      AnyGenericNames(ps);
      GenericNames(r);
  }

  lemma {:induction false} AnyGenericNames(ts: Types)
    ensures AnyGeneric(ts) <==> AllNames(ts) != {}
    decreases ts
  {
    if ts.Types? {
      GenericNames(ts.head);
      AnyGenericNames(ts.tail);
    }
  }

  /** Whatever the types, what is bound stays bound to the same, and only open parameters of `p`
      are bound in addition. */
  lemma {:induction false} UnifyKeeps(p: Type, arg: Type, subs: Bindings)
    ensures var b := Unified(p, arg, subs);
      (forall x :: x in subs ==> x in b && b[x] == subs[x]) && b.Keys <= subs.Keys + OpenNames(p)
    decreases p
  {
    match p
    case Basic(_) =>
    case Param(_) =>
    case ArrayOf(e, _) => if arg.ArrayOf? { UnifyKeeps(e, arg.elem, subs); }
    case MapOf(k, v, _) =>
      if arg.MapOf? {
        UnifyKeeps(k, arg.key, subs);
        UnifyKeeps(v, arg.value, Unified(k, arg.key, subs));
      }
    case ResultOf(u) => if arg.ResultOf? { UnifyKeeps(u, arg.t, subs); }
    case OptionOf(_) =>
    case FunctionOf(_, _) =>
  }

  ghost predicate Concrete(s: Bindings) { forall x :: x in s ==> !Generic(s[x]) }

  /** Substituting concrete types leaves a parameter exactly if one is not bound. */
  lemma {:induction false} SubstituteGeneric(p: Type, s: Bindings)
    requires Concrete(s)
    ensures Generic(Substitute(p, s)) <==> !(Names(p) <= s.Keys)
    decreases p
  {
    match p
    case Basic(_) =>
    case Param(_) =>
    case ArrayOf(e, _) => SubstituteGeneric(e, s);
    case MapOf(k, v, _) =>
      SubstituteGeneric(k, s);
      SubstituteGeneric(v, s);
    case ResultOf(u) => SubstituteGeneric(u, s);
    case OptionOf(u) => SubstituteGeneric(u, s);
    case FunctionOf(ps, r) =>
      SubstituteAllGeneric(ps, s);
      SubstituteGeneric(r, s);
  }

  lemma {:induction false} SubstituteAllGeneric(ps: Types, s: Bindings)
    requires Concrete(s)
    ensures AnyGeneric(SubstituteAll(ps, s)) <==> !(AllNames(ps) <= s.Keys)
    decreases ps
  {
    if ps.Types? {
      SubstituteGeneric(ps.head, s);
      SubstituteAllGeneric(ps.tail, s);
    }
  }

  lemma {:induction false} SameGeneric(a: Type, b: Type)
    requires Same(a, b)
    ensures Generic(a) <==> Generic(b)
    decreases a
  {
    match a
    case Basic(_) =>
    case Param(_) =>
    case ArrayOf(e, _) => SameGeneric(e, b.elem);
    case MapOf(k, v, _) =>
      SameGeneric(k, b.key);
      SameGeneric(v, b.value);
    case ResultOf(u) => SameGeneric(u, b.t);
    case OptionOf(u) => SameGeneric(u, b.t);
    case FunctionOf(ps, r) =>
      AllSameGeneric(ps, b.params);
      SameGeneric(r, b.ret);
  }

  lemma {:induction false} AllSameGeneric(a: Types, b: Types)
    requires AllSame(a, b)
    ensures AnyGeneric(a) <==> AnyGeneric(b)
    decreases a
  {
    if a.Types? {
      SameGeneric(a.head, b.head);
      AllSameGeneric(a.tail, b.tail);
    }
  }

  /** Type arguments are inferred back from an instance exactly if every parameter occurs in an
      open position; then the instance has the signature of `p` under the inferred bindings,
      and otherwise a parameter is left over. */
  lemma InferenceExact(p: Type, s: Bindings, arg: Type)
    requires Concrete(s) && Names(p) <= s.Keys && Same(Substitute(p, s), arg)
    ensures var b := Unified(p, arg, map[]);
      && Concrete(b) && b.Keys == OpenNames(p)
      && (Same(Substitute(p, b), arg) <==> OpenNames(p) == Names(p))
      && (OpenNames(p) == Names(p) ==> Signature(Substitute(p, b)) == Signature(arg) && !Generic(Substitute(p, b)))
      && (OpenNames(p) != Names(p) ==> Generic(Substitute(p, b)))
  {
    var b := Unified(p, arg, map[]);
    assert {} + OpenNames(p) == OpenNames(p);
    UnifyRecovers(p, arg, map[], s, {});
    forall x | x in b ensures !Generic(b[x]) { SameGeneric(s[x], b[x]); }
    SubstituteGeneric(p, b);
    SubstituteGeneric(p, s);
    SameGeneric(Substitute(p, s), arg);
    if OpenNames(p) == Names(p) {
      SubstituteSame(p, s, b);
      SameBoth(Substitute(p, s), Substitute(p, b), arg);
      SameSignature(Substitute(p, b), arg);
    } else if Same(Substitute(p, b), arg) {
      SameGeneric(Substitute(p, b), arg);
    }
  }

  /** A parameter under `option`, or of a function type, is not inferred from any argument. */
  lemma OptionLost(x: string, arg: Type)
    ensures var p := OptionOf(Param(x));
      Unified(p, arg, map[]) == map[] && Generic(Substitute(p, Unified(p, arg, map[])))
    ensures var p := FunctionOf(Types(Param(x), NoTypes), Param(x));
      Unified(p, arg, map[]) == map[] && Generic(Substitute(p, Unified(p, arg, map[])))
  {
    var p := FunctionOf(Types(Param(x), NoTypes), Param(x));
    assert Generic(Substitute(Param(x), map[])) && Generic(Substitute(p, map[]).ret);
  }

  lemma {:induction false} SameBoth(a: Type, b: Type, c: Type)
    requires Same(a, b) && Same(a, c)
    ensures Same(b, c)
    decreases a
  {
    match a
    case Basic(_) =>
    case Param(_) =>
    case ArrayOf(e, _) => SameBoth(e, b.elem, c.elem);
    case MapOf(k, v, _) =>
      SameBoth(k, b.key, c.key);
      SameBoth(v, b.value, c.value);
    case ResultOf(u) => SameBoth(u, b.t, c.t);
    case OptionOf(u) => SameBoth(u, b.t, c.t);
    case FunctionOf(ps, r) =>
      AllSameBoth(ps, b.params, c.params);
      SameBoth(r, b.ret, c.ret);
  }

  lemma {:induction false} AllSameBoth(a: Types, b: Types, c: Types)
    requires AllSame(a, b) && AllSame(a, c)
    ensures AllSame(b, c)
    decreases a
  {
    if a.Types? {
      SameBoth(a.head, b.head, c.head);
      AllSameBoth(a.tail, b.tail, c.tail);
    }
  }
}
