/** The types of transaction arguments: `processType` and `getRootType` follow a chain type through the table of
    definitions down to something a user can fill in. */
module TypeArguments {

  datatype RootType = Did | Address | Balance | Number | Text | Boolean | Date

  /** A parsed chain type: its text, its name where it is a field or a variant, and its structure. */
  datatype TypeDef = TypeDef(typ: string, name: string, body: Body)
  datatype Body =
    | Plain
    | Compact(sub: TypeDef)
    | Option(sub: TypeDef)
    | Tuple(subs: seq<TypeDef>)
    | Vec(sub: TypeDef)
    | VecFixed(sub: TypeDef)
    | Enum(subs: seq<TypeDef>)
    | Struct(subs: seq<TypeDef>)
    | Foreign

  /** A transaction argument. Enums carry the names of their variants if these hold nothing. */
  datatype Argument = Argument(name: string, optional: bool, rawType: TypeDef, shape: Shape)
  datatype Shape =
    | Root(root: RootType)
    | Null
    | Unknown
    | TupleOf(args: seq<Argument>)
    | ArrayOf(arg: Argument)
    | SimpleEnum(names: seq<string>)
    | RichEnum(args: seq<Argument>)
    | Object(args: seq<Argument>)

  /** The root types and the definitions. A definition that is a plain name makes its key an alias. */
  datatype Table = Table(roots: map<string, RootType>, defs: map<string, TypeDef>)

  predicate Followed(t: Table, n: string) {
    n !in t.roots && n != "Null" && n in t.defs
  }

  predicate Simple(variants: seq<TypeDef>) {
    forall i :: 0 <= i < |variants| ==> variants[i].typ == "Null"
  }

  // ---------------------------------------------------------------- tables without cycles

  type Rank = string -> nat

  /** Every definition that processing `ty` has to look up ranks below `bound`. */
  ghost predicate Below(t: Table, rank: Rank, bound: nat, ty: TypeDef)
    decreases ty
  {
    match ty.body
    case Plain => Followed(t, ty.typ) ==> rank(ty.typ) < bound
    case Compact(sub) => Below(t, rank, bound, sub)
    case Option(sub) => Below(t, rank, bound, sub)
    case Vec(sub) => Below(t, rank, bound, sub)
    case Tuple(subs) => forall i :: 0 <= i < |subs| ==> Below(t, rank, bound, subs[i])
    case Struct(subs) => forall i :: 0 <= i < |subs| ==> Below(t, rank, bound, subs[i])
    case Enum(subs) => Simple(subs) || forall i :: 0 <= i < |subs| ==> Below(t, rank, bound, subs[i])
    case VecFixed(_) => true
    case Foreign => true
  }

  ghost predicate Ranked(t: Table, rank: Rank) {
    forall n :: Followed(t, n) ==> Below(t, rank, rank(n), t.defs[n])
  }

  function Decimal(n: nat): string {
    if n < 10 then ["0123456789"[n]] else Decimal(n / 10) + ["0123456789"[n % 10]]
  }

  // ---------------------------------------------------------------- the two functions

  function GetRootType(t: Table, ghost rank: Rank, ghost bound: nat, n: string): (s: Shape)
    requires Ranked(t, rank) && (Followed(t, n) ==> rank(n) < bound)
    decreases bound, 0
  {
    if n in t.roots then Root(t.roots[n])
    else if n == "Null" then Null
    else if n !in t.defs then Unknown
    else
      var def := t.defs[n];
      if def.body.Plain? then GetRootType(t, rank, rank(n), def.typ)
      else ProcessType(t, rank, rank(n), def, "").shape
  }

  function ProcessType(t: Table, ghost rank: Rank, ghost bound: nat, ty: TypeDef, name: string): (a: Argument)
    requires Ranked(t, rank) && Below(t, rank, bound, ty)
    ensures a.name == name && a.rawType == ty
    ensures a.optional <==> ty.body.Option?
    decreases bound, 1, ty
  {
    match ty.body
    case Plain => Argument(name, false, ty, GetRootType(t, rank, bound, ty.typ))
    case Compact(sub) => Argument(name, false, ty, ProcessType(t, rank, bound, sub, name).shape)
    case Option(sub) => Argument(name, true, ty, ProcessType(t, rank, bound, sub, name).shape)
    case Tuple(subs) =>
      Argument(name, false, ty,
               TupleOf(seq(|subs|, i requires 0 <= i < |subs| => ProcessType(t, rank, bound, subs[i], Decimal(i)))))
    case Vec(sub) => Argument(name, false, ty, ArrayOf(ProcessType(t, rank, bound, sub, "")))
    case VecFixed(_) => Argument(name, false, ty, Root(Text))
    case Enum(subs) =>
      if Simple(subs) then
        Argument(name, false, ty, SimpleEnum(seq(|subs|, i requires 0 <= i < |subs| => subs[i].name)))
      else
        Argument(name, false, ty,
                 RichEnum(seq(|subs|, i requires 0 <= i < |subs| => ProcessType(t, rank, bound, subs[i], subs[i].name))))
    case Struct(subs) =>
      Argument(name, false, ty,
               Object(seq(|subs|, i requires 0 <= i < |subs| => ProcessType(t, rank, bound, subs[i], subs[i].name))))
    case Foreign => Argument(name, false, ty, Unknown)
  }

  /** The ranking only shows that the calls end; it has no part in the result. */
  lemma {:induction false} RankDoesNotMatter(t: Table, r: Rank, b: nat, r': Rank, b': nat, ty: TypeDef, name: string)
    requires Ranked(t, r) && Below(t, r, b, ty)
    requires Ranked(t, r') && Below(t, r', b', ty)
    ensures ProcessType(t, r, b, ty, name) == ProcessType(t, r', b', ty, name)
    decreases b, 1, ty
  {
    match ty.body
    case Plain => RootRankDoesNotMatter(t, r, b, r', b', ty.typ);
    case Compact(sub) => RankDoesNotMatter(t, r, b, r', b', sub, name);
    case Option(sub) => RankDoesNotMatter(t, r, b, r', b', sub, name);
    case Vec(sub) => RankDoesNotMatter(t, r, b, r', b', sub, "");
    case Tuple(subs) =>
      forall i | 0 <= i < |subs|
        ensures ProcessType(t, r, b, subs[i], Decimal(i)) == ProcessType(t, r', b', subs[i], Decimal(i))
      {
        RankDoesNotMatter(t, r, b, r', b', subs[i], Decimal(i));
      }
      SameMembers(ProcessType(t, r, b, ty, name), ProcessType(t, r', b', ty, name));
    case Enum(subs) =>
      if !Simple(subs) {
        forall i | 0 <= i < |subs|
          ensures ProcessType(t, r, b, subs[i], subs[i].name) == ProcessType(t, r', b', subs[i], subs[i].name)
        {
          RankDoesNotMatter(t, r, b, r', b', subs[i], subs[i].name);
        }
        SameMembers(ProcessType(t, r, b, ty, name), ProcessType(t, r', b', ty, name));
      }
    case Struct(subs) =>
      forall i | 0 <= i < |subs|
        ensures ProcessType(t, r, b, subs[i], subs[i].name) == ProcessType(t, r', b', subs[i], subs[i].name)
      {
        RankDoesNotMatter(t, r, b, r', b', subs[i], subs[i].name);
      }
      SameMembers(ProcessType(t, r, b, ty, name), ProcessType(t, r', b', ty, name));
    case VecFixed(_) =>
    case Foreign =>
  }

  /** Arguments that agree on everything and, one by one, on their members. */
  lemma SameMembers(a: Argument, b: Argument)
    requires a.name == b.name && a.optional == b.optional && a.rawType == b.rawType
    requires || (a.shape.TupleOf? && b.shape.TupleOf?)
             || (a.shape.RichEnum? && b.shape.RichEnum?)
             || (a.shape.Object? && b.shape.Object?)
    requires |a.shape.args| == |b.shape.args|
    requires forall i :: 0 <= i < |a.shape.args| ==> a.shape.args[i] == b.shape.args[i]
    ensures a == b
  {
    assert a.shape.args == b.shape.args;
  }

  lemma {:induction false} RootRankDoesNotMatter(t: Table, r: Rank, b: nat, r': Rank, b': nat, n: string)
    requires Ranked(t, r) && (Followed(t, n) ==> r(n) < b)
    requires Ranked(t, r') && (Followed(t, n) ==> r'(n) < b')
    ensures GetRootType(t, r, b, n) == GetRootType(t, r', b', n)
    decreases b, 0
  {
    if Followed(t, n) {
      var def := t.defs[n];
      if def.body.Plain? {
        RootRankDoesNotMatter(t, r, r(n), r', r'(n), def.typ);
      } else {
        RankDoesNotMatter(t, r, r(n), r', r'(n), def, "");
      }
    }
  }

  // ---------------------------------------------------------------- termination

  /** The calls for `ty` follow definitions at most `depth` deep. */
  ghost predicate Ends(t: Table, depth: nat, ty: TypeDef)
    decreases depth, 1, ty
  {
    match ty.body
    case Plain => EndsAt(t, depth, ty.typ)
    case Compact(sub) => Ends(t, depth, sub)
    case Option(sub) => Ends(t, depth, sub)
    case Vec(sub) => Ends(t, depth, sub)
    case Tuple(subs) => forall i :: 0 <= i < |subs| ==> Ends(t, depth, subs[i])
    case Struct(subs) => forall i :: 0 <= i < |subs| ==> Ends(t, depth, subs[i])
    case Enum(subs) => Simple(subs) || forall i :: 0 <= i < |subs| ==> Ends(t, depth, subs[i])
    case VecFixed(_) => true
    case Foreign => true
  }

  ghost predicate EndsAt(t: Table, depth: nat, n: string)
    decreases depth, 0
  {
    Followed(t, n) ==> depth > 0 && Ends(t, depth - 1, t.defs[n])
  }

  ghost predicate Terminates(t: Table, n: string) {
    exists depth: nat :: EndsAt(t, depth, n)
  }

  lemma {:induction false} BelowEnds(t: Table, rank: Rank, bound: nat, depth: nat, ty: TypeDef)
    requires Ranked(t, rank) && Below(t, rank, bound, ty) && bound <= depth
    ensures Ends(t, depth, ty)
    decreases depth, 1, ty
  {
    match ty.body
    case Plain =>
      if Followed(t, ty.typ) {
        BelowEnds(t, rank, rank(ty.typ), depth - 1, t.defs[ty.typ]);
      }
    case Compact(sub) => BelowEnds(t, rank, bound, depth, sub);
    case Option(sub) => BelowEnds(t, rank, bound, depth, sub);
    case Vec(sub) => BelowEnds(t, rank, bound, depth, sub);
    case Tuple(subs) => BelowEndsAll(t, rank, bound, depth, ty, subs);
    case Struct(subs) => BelowEndsAll(t, rank, bound, depth, ty, subs);
    case Enum(subs) => if !Simple(subs) { BelowEndsAll(t, rank, bound, depth, ty, subs); }
    case VecFixed(_) =>
    case Foreign =>
  }

  lemma {:induction false} BelowEndsAll(t: Table, rank: Rank, bound: nat, depth: nat, ty: TypeDef, subs: seq<TypeDef>)
    requires Ranked(t, rank) && bound <= depth
    requires forall i :: 0 <= i < |subs| ==> subs[i] < ty && Below(t, rank, bound, subs[i])
    ensures forall i :: 0 <= i < |subs| ==> Ends(t, depth, subs[i])
    decreases depth, 1, ty, 0
  {
    forall i | 0 <= i < |subs| ensures Ends(t, depth, subs[i]) {
      BelowEnds(t, rank, bound, depth, subs[i]);
    }
  }

  /** The least depth at which the calls for `n` end. */
  ghost predicate IsLeast(t: Table, n: string, least: nat) {
    EndsAt(t, least, n) && forall d: nat :: d < least ==> !EndsAt(t, d, n)
  }

  lemma {:induction false} LeastExists(t: Table, n: string, depth: nat)
    requires EndsAt(t, depth, n)
    ensures exists least: nat :: IsLeast(t, n, least)
    decreases depth
  {
    if d: nat :| d < depth && EndsAt(t, d, n) {
      LeastExists(t, n, d);
    } else {
      assert IsLeast(t, n, depth);
    }
  }

  ghost function Depth(t: Table, n: string): (least: nat)
    ensures Terminates(t, n) ==> IsLeast(t, n, least)
  {
    if exists least: nat :: IsLeast(t, n, least) then
      var least: nat :| IsLeast(t, n, least);
      least
    else
      assert !Terminates(t, n) by {
        if depth: nat :| EndsAt(t, depth, n) {
          LeastExists(t, n, depth);
        }
      }
      0
  }

  ghost function LeastRank(t: Table): Rank {
    n => Depth(t, n)
  }

  lemma {:induction false} EndsBelow(t: Table, depth: nat, ty: TypeDef)
    requires Ends(t, depth, ty)
    ensures Below(t, LeastRank(t), depth + 1, ty)
    decreases ty
  {
    match ty.body
    case Plain =>
      assert EndsAt(t, depth, ty.typ);
      assert Terminates(t, ty.typ);
    case Compact(sub) => EndsBelow(t, depth, sub);
    case Option(sub) => EndsBelow(t, depth, sub);
    case Vec(sub) => EndsBelow(t, depth, sub);
    case Tuple(subs) =>
      forall i | 0 <= i < |subs| ensures Below(t, LeastRank(t), depth + 1, subs[i]) { EndsBelow(t, depth, subs[i]); }
    case Struct(subs) =>
      forall i | 0 <= i < |subs| ensures Below(t, LeastRank(t), depth + 1, subs[i]) { EndsBelow(t, depth, subs[i]); }
    case Enum(subs) =>
      if !Simple(subs) {
        forall i | 0 <= i < |subs| ensures Below(t, LeastRank(t), depth + 1, subs[i]) { EndsBelow(t, depth, subs[i]); }
      }
    case VecFixed(_) =>
    case Foreign =>
  }

  /** The expansion of every name ends if and only if the definitions can be ranked. */
  lemma TerminatesExactlyIfRanked(t: Table)
    ensures (forall n :: Terminates(t, n)) <==> Ranked(t, LeastRank(t))
    ensures (forall n :: Terminates(t, n)) <==> exists rank: Rank :: Ranked(t, rank)
  {
    if forall n :: Terminates(t, n) {
      forall n | Followed(t, n) ensures Below(t, LeastRank(t), LeastRank(t)(n), t.defs[n]) {
        assert Terminates(t, n);
        assert EndsAt(t, Depth(t, n), n);
        EndsBelow(t, Depth(t, n) - 1, t.defs[n]);
      }
      assert Ranked(t, LeastRank(t));
    }
    if rank: Rank :| Ranked(t, rank) {
      forall n ensures Terminates(t, n) {
        if Followed(t, n) {
          BelowEnds(t, rank, rank(n), rank(n), t.defs[n]);
          assert EndsAt(t, rank(n) + 1, n);
        } else {
          assert EndsAt(t, 0, n);
        }
      }
    }
  }

  // ---------------------------------------------------------------- reference cycles

  /** Processing `ty` looks the definition of `m` up, before following any. */
  ghost predicate Refers(t: Table, ty: TypeDef, m: string)
    decreases ty
  {
    match ty.body
    case Plain => Followed(t, ty.typ) && m == ty.typ
    case Compact(sub) => Refers(t, sub, m)
    case Option(sub) => Refers(t, sub, m)
    case Vec(sub) => Refers(t, sub, m)
    case Tuple(subs) => exists i :: 0 <= i < |subs| && Refers(t, subs[i], m)
    case Struct(subs) => exists i :: 0 <= i < |subs| && Refers(t, subs[i], m)
    case Enum(subs) => !Simple(subs) && exists i :: 0 <= i < |subs| && Refers(t, subs[i], m)
    case VecFixed(_) => false
    case Foreign => false
  }

  ghost predicate RefersTo(t: Table, n: string, m: string) {
    Followed(t, n) && Followed(t, m) && Refers(t, t.defs[n], m)
  }

  /** Names each of which refers to the next. */
  ghost predicate Chain(t: Table, p: seq<string>) {
    forall i :: 0 <= i < |p| - 1 ==> RefersTo(t, p[i], p[i + 1])
  }

  ghost predicate Cyclic(t: Table) {
    exists p :: |p| > 1 && Chain(t, p) && p[0] == p[|p| - 1]
  }

  lemma {:induction false} RefersFollowed(t: Table, ty: TypeDef, m: string)
    requires Refers(t, ty, m)
    ensures Followed(t, m)
    decreases ty
  {
    match ty.body
    case Plain =>
    case Compact(sub) => RefersFollowed(t, sub, m);
    case Option(sub) => RefersFollowed(t, sub, m);
    case Vec(sub) => RefersFollowed(t, sub, m);
    case Tuple(subs) => var i :| 0 <= i < |subs| && Refers(t, subs[i], m); RefersFollowed(t, subs[i], m);
    case Struct(subs) => var i :| 0 <= i < |subs| && Refers(t, subs[i], m); RefersFollowed(t, subs[i], m);
    case Enum(subs) => var i :| 0 <= i < |subs| && Refers(t, subs[i], m); RefersFollowed(t, subs[i], m);
  }

  /** Ranks fall from a type to the names it refers to ... */
  lemma {:induction false} RankFalls(t: Table, rank: Rank, bound: nat, ty: TypeDef, m: string)
    requires Below(t, rank, bound, ty) && Refers(t, ty, m)
    ensures rank(m) < bound
    decreases ty
  {
    match ty.body
    case Plain =>
    case Compact(sub) => RankFalls(t, rank, bound, sub, m);
    case Option(sub) => RankFalls(t, rank, bound, sub, m);
    case Vec(sub) => RankFalls(t, rank, bound, sub, m);
    case Tuple(subs) => var i :| 0 <= i < |subs| && Refers(t, subs[i], m); RankFalls(t, rank, bound, subs[i], m);
    case Struct(subs) => var i :| 0 <= i < |subs| && Refers(t, subs[i], m); RankFalls(t, rank, bound, subs[i], m);
    case Enum(subs) => var i :| 0 <= i < |subs| && Refers(t, subs[i], m); RankFalls(t, rank, bound, subs[i], m);
  }

  /** ... and so along every chain. */
  lemma {:induction false} RankFallsAlong(t: Table, rank: Rank, p: seq<string>)
    requires Ranked(t, rank) && Chain(t, p) && |p| > 1
    ensures rank(p[|p| - 1]) < rank(p[0])
    decreases |p|
  {
    assert RefersTo(t, p[0], p[1]);
    RankFalls(t, rank, rank(p[0]), t.defs[p[0]], p[1]);
    if |p| > 2 {
      var rest := p[1..];
      forall i | 0 <= i < |rest| - 1 ensures RefersTo(t, rest[i], rest[i + 1]) {
        assert RefersTo(t, p[i + 1], p[i + 2]);
      }
      RankFallsAlong(t, rank, rest);
    }
  }

  /** A type whose calls go deeper than `depth` refers to a name whose calls do. */
  lemma {:induction false} DeepReference(t: Table, depth: nat, ty: TypeDef) returns (m: string)
    requires !Ends(t, depth, ty)
    ensures Refers(t, ty, m) && !EndsAt(t, depth, m)
    decreases ty
  {
    match ty.body
    case Plain => m := ty.typ;
    case Compact(sub) => m := DeepReference(t, depth, sub);
    case Option(sub) => m := DeepReference(t, depth, sub);
    case Vec(sub) => m := DeepReference(t, depth, sub);
    case Tuple(subs) => var i :| 0 <= i < |subs| && !Ends(t, depth, subs[i]); m := DeepReference(t, depth, subs[i]);
    case Struct(subs) => var i :| 0 <= i < |subs| && !Ends(t, depth, subs[i]); m := DeepReference(t, depth, subs[i]);
    case Enum(subs) => var i :| 0 <= i < |subs| && !Ends(t, depth, subs[i]); m := DeepReference(t, depth, subs[i]);
  }

  /** Calls that go deeper than `depth` leave a chain of that many references. */
  lemma {:induction false} DeepChain(t: Table, depth: nat, n: string) returns (p: seq<string>)
    requires !EndsAt(t, depth, n)
    ensures |p| == depth + 1 && p[0] == n && Chain(t, p) && forall i :: 0 <= i < |p| ==> p[i] in t.defs
    decreases depth
  {
    if depth == 0 {
      p := [n];
    } else {
      var m := DeepReference(t, depth - 1, t.defs[n]);
      RefersFollowed(t, t.defs[n], m);
      var rest := DeepChain(t, depth - 1, m);
      p := [n] + rest;
      forall i | 0 <= i < |p| - 1 ensures RefersTo(t, p[i], p[i + 1]) {
        if i > 0 {
          assert RefersTo(t, rest[i - 1], rest[i]);
        }
      }
    }
  }

  lemma RankedHasNoCycle(t: Table, rank: Rank)
    requires Ranked(t, rank)
    ensures !Cyclic(t)
  {
    forall p | |p| > 1 && Chain(t, p) ensures p[0] != p[|p| - 1] {
      RankFallsAlong(t, rank, p);
    }
  }

  /** More entries than there are names for: two are the same. */
  lemma {:induction false} Repeats(p: seq<string>, names: set<string>) returns (i: nat, j: nat)
    requires |p| > |names| && forall k :: 0 <= k < |p| ==> p[k] in names
    ensures i < j < |p| && p[i] == p[j]
    decreases |p|
  {
    var last := |p| - 1;
    if k :| 0 <= k < last && p[k] == p[last] {
      i, j := k, last;
    } else {
      i, j := Repeats(p[..last], names - {p[last]});
    }
  }

  /** Without a cycle no expansion goes deeper than there are definitions. */
  lemma EndsOrCycles(t: Table, n: string)
    ensures EndsAt(t, |t.defs|, n) || Cyclic(t)
  {
    if !EndsAt(t, |t.defs|, n) {
      var p := DeepChain(t, |t.defs|, n);
      var i, j := Repeats(p, t.defs.Keys);
      var cycle := p[i..j + 1];
      forall k | 0 <= k < |cycle| - 1 ensures RefersTo(t, cycle[k], cycle[k + 1]) {
        assert RefersTo(t, p[i + k], p[i + k + 1]);
      }
      assert Chain(t, cycle) && cycle[0] == cycle[|cycle| - 1];
    }
  }

  /** The expansion of every name ends if and only if no definition refers back to itself, however indirectly. */
  lemma TerminatesExactlyIfAcyclic(t: Table)
    ensures (forall n :: Terminates(t, n)) <==> !Cyclic(t)
  {
    TerminatesExactlyIfRanked(t);
    if Ranked(t, LeastRank(t)) {
      RankedHasNoCycle(t, LeastRank(t));
    }
    if !Cyclic(t) {
      forall n ensures Terminates(t, n) {
        EndsOrCycles(t, n);
      }
    }
  }

  /** The ranking an acyclic table has: every name by the depth of its expansion. */
  ghost function AcyclicRank(t: Table): (rank: Rank)
    requires !Cyclic(t)
    ensures Ranked(t, rank) && forall n :: Followed(t, n) ==> rank(n) <= |t.defs|
  {
    TerminatesExactlyIfAcyclic(t);
    TerminatesExactlyIfRanked(t);
    assert forall n :: Followed(t, n) ==> LeastRank(t)(n) <= |t.defs| by {
      forall n | Followed(t, n) ensures Depth(t, n) <= |t.defs| {
        EndsOrCycles(t, n);
        assert Terminates(t, n);
      }
    }
    LeastRank(t)
  }

  lemma {:induction false} AllBelow(t: Table, rank: Rank, bound: nat, ty: TypeDef)
    requires forall n :: Followed(t, n) ==> rank(n) < bound
    ensures Below(t, rank, bound, ty)
    decreases ty
  {
    match ty.body
    case Compact(sub) => AllBelow(t, rank, bound, sub);
    case Option(sub) => AllBelow(t, rank, bound, sub);
    case Vec(sub) => AllBelow(t, rank, bound, sub);
    case Tuple(subs) => forall i | 0 <= i < |subs| { AllBelow(t, rank, bound, subs[i]); }
    case Struct(subs) => forall i | 0 <= i < |subs| { AllBelow(t, rank, bound, subs[i]); }
    case Enum(subs) => forall i | 0 <= i < |subs| { AllBelow(t, rank, bound, subs[i]); }
    case _ =>
  }

  /** `processType` as it is called from outside: for every table without cycles and every type. */
  function Expand(t: Table, ty: TypeDef, name: string): (a: Argument)
    requires !Cyclic(t)
    ensures a.name == name && a.rawType == ty && (a.optional <==> ty.body.Option?)
  {
    AllBelow(t, AcyclicRank(t), |t.defs| + 1, ty);
    ProcessType(t, AcyclicRank(t), |t.defs| + 1, ty, name)
  }

  /** Any table that can be ranked is one of these, and the ranking gives the same result: what is said below of
      ranked tables is said of exactly the tables without cycles. */
  lemma RankedIsAcyclic(t: Table, rank: Rank, bound: nat, ty: TypeDef, name: string)
    requires Ranked(t, rank) && Below(t, rank, bound, ty)
    ensures !Cyclic(t) && ProcessType(t, rank, bound, ty, name) == Expand(t, ty, name)
  {
    RankedHasNoCycle(t, rank);
    AllBelow(t, AcyclicRank(t), |t.defs| + 1, ty);
    RankDoesNotMatter(t, rank, bound, AcyclicRank(t), |t.defs| + 1, ty, name);
  }

  // ---------------------------------------------------------------- following aliases

  /** The definition at the end of a chain of aliases. */
  function Final(t: Table, ghost rank: Rank, n: string): (def: TypeDef)
    requires Ranked(t, rank) && Followed(t, n)
    decreases rank(n)
  {
    var def := t.defs[n];
    if def.body.Plain? && Followed(t, def.typ) then Final(t, rank, def.typ) else def
  }

  /** The table with all chains of aliases cut short. */
  function Shortened(t: Table, ghost rank: Rank): (s: Table)
    requires Ranked(t, rank)
    ensures s.roots == t.roots && s.defs.Keys == t.defs.Keys
  {
    Table(t.roots, map n | n in t.defs :: if Followed(t, n) then Final(t, rank, n) else t.defs[n])
  }

  lemma {:induction false} BelowShortened(t: Table, rank: Rank, s: Table, bound: nat, ty: TypeDef)
    requires Ranked(t, rank) && s == Shortened(t, rank) && Below(t, rank, bound, ty)
    ensures Below(s, rank, bound, ty)
    decreases ty
  {
    match ty.body
    case Compact(sub) => BelowShortened(t, rank, s, bound, sub);
    case Option(sub) => BelowShortened(t, rank, s, bound, sub);
    case Vec(sub) => BelowShortened(t, rank, s, bound, sub);
    case Tuple(subs) => forall i | 0 <= i < |subs| { BelowShortened(t, rank, s, bound, subs[i]); }
    case Struct(subs) => forall i | 0 <= i < |subs| { BelowShortened(t, rank, s, bound, subs[i]); }
    case Enum(subs) =>
      if !Simple(subs) {
        forall i | 0 <= i < |subs| { BelowShortened(t, rank, s, bound, subs[i]); }
      }
    case _ =>
  }

  lemma {:induction false} BelowMonotone(t: Table, rank: Rank, b: nat, c: nat, ty: TypeDef)
    requires Below(t, rank, b, ty) && b <= c
    ensures Below(t, rank, c, ty)
    decreases ty
  {
    match ty.body
    case Compact(sub) => BelowMonotone(t, rank, b, c, sub);
    case Option(sub) => BelowMonotone(t, rank, b, c, sub);
    case Vec(sub) => BelowMonotone(t, rank, b, c, sub);
    case Tuple(subs) => forall i | 0 <= i < |subs| { BelowMonotone(t, rank, b, c, subs[i]); }
    case Struct(subs) => forall i | 0 <= i < |subs| { BelowMonotone(t, rank, b, c, subs[i]); }
    case Enum(subs) => if !Simple(subs) { forall i | 0 <= i < |subs| { BelowMonotone(t, rank, b, c, subs[i]); } }
    case _ =>
  }

  lemma {:induction false} FinalBelow(t: Table, rank: Rank, n: string)
    requires Ranked(t, rank) && Followed(t, n)
    ensures Below(t, rank, rank(n), Final(t, rank, n))
    decreases rank(n)
  {
    var def := t.defs[n];
    if def.body.Plain? && Followed(t, def.typ) {
      FinalBelow(t, rank, def.typ);
      BelowMonotone(t, rank, rank(def.typ), rank(n), Final(t, rank, def.typ));
    }
  }

  lemma ShortenedRanked(t: Table, rank: Rank)
    requires Ranked(t, rank)
    ensures Ranked(Shortened(t, rank), rank)
  {
    var s := Shortened(t, rank);
    forall n | Followed(s, n) ensures Below(s, rank, rank(n), s.defs[n]) {
      FinalBelow(t, rank, n);
      BelowShortened(t, rank, s, rank(n), Final(t, rank, n));
    }
  }

  /** Cutting the chains short changes no result: an alias has the shape of what its chain ends in. */
  lemma {:induction false} ShorteningKeepsMeaning(t: Table, rank: Rank, s: Table, bound: nat, ty: TypeDef, name: string)
    requires Ranked(t, rank) && Below(t, rank, bound, ty) && s == Shortened(t, rank)
    requires Ranked(s, rank) && Below(s, rank, bound, ty)
    ensures ProcessType(s, rank, bound, ty, name) == ProcessType(t, rank, bound, ty, name)
    decreases bound, 1, ty
  {
    match ty.body
    case Plain => ShorteningKeepsRoots(t, rank, s, bound, ty.typ);
    case Compact(sub) => ShorteningKeepsMeaning(t, rank, s, bound, sub, name);
    case Option(sub) => ShorteningKeepsMeaning(t, rank, s, bound, sub, name);
    case Vec(sub) => ShorteningKeepsMeaning(t, rank, s, bound, sub, "");
    case Tuple(subs) =>
      forall i | 0 <= i < |subs|
        ensures ProcessType(s, rank, bound, subs[i], Decimal(i)) == ProcessType(t, rank, bound, subs[i], Decimal(i))
      {
        ShorteningKeepsMeaning(t, rank, s, bound, subs[i], Decimal(i));
      }
      SameMembers(ProcessType(s, rank, bound, ty, name), ProcessType(t, rank, bound, ty, name));
    case Enum(subs) =>
      if !Simple(subs) {
        forall i | 0 <= i < |subs|
          ensures ProcessType(s, rank, bound, subs[i], subs[i].name) == ProcessType(t, rank, bound, subs[i], subs[i].name)
        {
          ShorteningKeepsMeaning(t, rank, s, bound, subs[i], subs[i].name);
        }
        SameMembers(ProcessType(s, rank, bound, ty, name), ProcessType(t, rank, bound, ty, name));
      }
    case Struct(subs) =>
      forall i | 0 <= i < |subs|
        ensures ProcessType(s, rank, bound, subs[i], subs[i].name) == ProcessType(t, rank, bound, subs[i], subs[i].name)
      {
        ShorteningKeepsMeaning(t, rank, s, bound, subs[i], subs[i].name);
      }
      SameMembers(ProcessType(s, rank, bound, ty, name), ProcessType(t, rank, bound, ty, name));
    case VecFixed(_) =>
    case Foreign =>
  }

  /** The shape of a followed name, taken from the end of its chain. */
  lemma {:induction false} FinalShape(t: Table, rank: Rank, bound: nat, n: string)
    requires Ranked(t, rank) && Followed(t, n) && rank(n) < bound
    ensures Below(t, rank, rank(n), Final(t, rank, n))
    ensures var def := Final(t, rank, n);
            GetRootType(t, rank, bound, n) == ProcessType(t, rank, rank(n), def, "").shape
    decreases rank(n)
  {
    FinalBelow(t, rank, n);
    var def := t.defs[n];
    if def.body.Plain? && Followed(t, def.typ) {
      FinalShape(t, rank, rank(n), def.typ);
      RankDoesNotMatter(t, rank, rank(def.typ), rank, rank(n), Final(t, rank, n), "");
    }
  }

  lemma {:induction false} ShorteningKeepsRoots(t: Table, rank: Rank, s: Table, bound: nat, n: string)
    requires Ranked(t, rank) && s == Shortened(t, rank) && Ranked(s, rank)
    requires Followed(t, n) ==> rank(n) < bound
    ensures GetRootType(s, rank, bound, n) == GetRootType(t, rank, bound, n)
    decreases bound, 0
  {
    if Followed(t, n) {
      var def := Final(t, rank, n);
      FinalShape(t, rank, bound, n);
      BelowShortened(t, rank, s, rank(n), def);
      ShorteningKeepsMeaning(t, rank, s, rank(n), def, "");
      assert s.defs[n] == def;
    }
  }

  /** Put together, for any table that can be ranked at all. */
  lemma AliasChainsCanBeShortened(t: Table, rank: Rank, bound: nat, ty: TypeDef, name: string)
    requires Ranked(t, rank) && Below(t, rank, bound, ty)
    ensures var s := Shortened(t, rank);
            && Ranked(s, rank) && Below(s, rank, bound, ty)
            && ProcessType(s, rank, bound, ty, name) == ProcessType(t, rank, bound, ty, name)
  {
    var s := Shortened(t, rank);
    ShortenedRanked(t, rank);
    BelowShortened(t, rank, s, bound, ty);
    ShorteningKeepsMeaning(t, rank, s, bound, ty, name);
  }

  /** And so for every table without cycles and every type. */
  lemma AliasesStandForTheirEnds(t: Table, ty: TypeDef, name: string)
    requires !Cyclic(t)
    ensures var s := Shortened(t, AcyclicRank(t)); !Cyclic(s) && Expand(s, ty, name) == Expand(t, ty, name)
  {
    var rank, bound := AcyclicRank(t), |t.defs| + 1;
    AllBelow(t, rank, bound, ty);
    AliasChainsCanBeShortened(t, rank, bound, ty, name);
    RankedIsAcyclic(Shortened(t, rank), rank, bound, ty, name);
  }

  // ---------------------------------------------------------------- shapes

  function Unwrapped(ty: TypeDef): TypeDef {
    match ty.body
    case Compact(sub) => Unwrapped(sub)
    case Option(sub) => Unwrapped(sub)
    case _ => ty
  }

  /** Wrappers, however many, leave the shape alone. */
  lemma {:induction false} WrappersKeepShape(t: Table, rank: Rank, bound: nat, ty: TypeDef, name: string)
    requires Ranked(t, rank) && Below(t, rank, bound, ty)
    ensures Below(t, rank, bound, Unwrapped(ty))
    ensures ProcessType(t, rank, bound, ty, name).shape == ProcessType(t, rank, bound, Unwrapped(ty), name).shape
  {
    match ty.body
    case Compact(sub) => WrappersKeepShape(t, rank, bound, sub, name);
    case Option(sub) => WrappersKeepShape(t, rank, bound, sub, name);
    case _ =>
  }

  ghost predicate Mirrors(args: seq<Argument>, subs: seq<TypeDef>) {
    && |args| == |subs|
    && forall i :: 0 <= i < |args| ==>
         args[i].name == subs[i].name && args[i].rawType == subs[i] && (args[i].optional <==> subs[i].body.Option?)
  }

  /** Structs and tuples keep their members in order, structs with their names, tuples with their positions. An
      enum is simple exactly if each of its variants is literally Null, and keeps the names in either case. */
  lemma MembersAreKept(t: Table, rank: Rank, bound: nat, ty: TypeDef, name: string)
    requires Ranked(t, rank) && Below(t, rank, bound, ty)
    ensures var shape := ProcessType(t, rank, bound, ty, name).shape;
            match ty.body
            case Struct(subs) => shape.Object? && Mirrors(shape.args, subs)
            case Tuple(subs) =>
              && shape.TupleOf? && |shape.args| == |subs|
              && forall i :: 0 <= i < |subs| ==> shape.args[i].name == Decimal(i) && shape.args[i].rawType == subs[i]
            case Enum(subs) =>
              && (shape.SimpleEnum? <==> forall v :: v in subs ==> v.typ == "Null")
              && (if shape.SimpleEnum?
                  then |shape.names| == |subs| && forall i :: 0 <= i < |subs| ==> shape.names[i] == subs[i].name
                  else shape.RichEnum? && Mirrors(shape.args, subs))
            case _ => true
  {
    if ty.body.Enum? && Simple(ty.body.subs) {
      assert forall v :: v in ty.body.subs ==> v.typ == "Null";
    }
  }

  /** Root types win over definitions of the same name; names without a definition are unknown. */
  lemma Precedence(t: Table, rank: Rank, bound: nat, n: string)
    requires Ranked(t, rank) && (Followed(t, n) ==> rank(n) < bound)
    ensures n in t.roots ==> GetRootType(t, rank, bound, n) == Root(t.roots[n])
    ensures n !in t.roots && n != "Null" && n !in t.defs ==> GetRootType(t, rank, bound, n) == Unknown
    ensures Followed(t, n) ==>
              && Below(t, rank, rank(n), Final(t, rank, n))
              && GetRootType(t, rank, bound, n) == ProcessType(t, rank, rank(n), Final(t, rank, n), "").shape
  {
    if Followed(t, n) {
      FinalShape(t, rank, bound, n);
    }
  }

  /** An alias hides what it stands for: one of an option is not optional, and a variant that is an alias of
      Null does not make its enum simple. */
  lemma AliasesHide(t: Table, rank: Rank, bound: nat, option: TypeDef, none: TypeDef)
    requires Ranked(t, rank) && "Maybe" !in t.roots && "Nothing" !in t.roots && "Null" !in t.roots
    requires option.typ == "Maybe" && option.body == Plain && "Maybe" in t.defs && t.defs["Maybe"].body.Option?
    requires none.typ == "Nothing" && none.body == Plain && "Nothing" in t.defs
    requires t.defs["Nothing"].typ == "Null" && t.defs["Nothing"].body == Plain
    requires rank("Maybe") < bound && rank("Nothing") < bound
    ensures !ProcessType(t, rank, bound, option, "x").optional
    ensures GetRootType(t, rank, bound, "Nothing") == Null
    ensures ProcessType(t, rank, bound, TypeDef("", "", Enum([none])), "x").shape.RichEnum?
  {
    assert [none][0].typ != "Null";
  }

  // ---------------------------------------------------------------- shapes of all types

  /** The parts of a type have no more to look up than the type. */
  lemma ExpandOfPart(t: Table, sub: TypeDef, name: string)
    requires !Cyclic(t)
    ensures Below(t, AcyclicRank(t), |t.defs| + 1, sub)
    ensures ProcessType(t, AcyclicRank(t), |t.defs| + 1, sub, name) == Expand(t, sub, name)
  {
    AllBelow(t, AcyclicRank(t), |t.defs| + 1, sub);
  }

  /** The members, each expanded by itself under its own name. */
  ghost predicate ExpandedMembers(t: Table, args: seq<Argument>, subs: seq<TypeDef>)
    requires !Cyclic(t)
  {
    |args| == |subs| && forall i :: 0 <= i < |subs| ==> args[i] == Expand(t, subs[i], subs[i].name)
  }

  ghost predicate ExpandedPlaces(t: Table, args: seq<Argument>, subs: seq<TypeDef>)
    requires !Cyclic(t)
  {
    |args| == |subs| && forall i :: 0 <= i < |subs| ==> args[i] == Expand(t, subs[i], Decimal(i))
  }

  /** The shape of every type without a name to look up: a vector is an array of its expanded element; tuples and
      structs hold their expanded members, under their places and their names; an enum is simple, with the names of
      its variants, or holds its expanded variants; wrappers have the shape of what they wrap; a vector of fixed
      length is text, and what is not known is unknown. */
  lemma ShapeMeans(t: Table, ty: TypeDef, name: string)
    requires !Cyclic(t)
    ensures var shape := Expand(t, ty, name).shape;
            match ty.body
            case Vec(sub) => shape == ArrayOf(Expand(t, sub, ""))
            case Compact(sub) => shape == Expand(t, sub, name).shape
            case Option(sub) => shape == Expand(t, sub, name).shape
            case Tuple(subs) => shape.TupleOf? && ExpandedPlaces(t, shape.args, subs)
            case Struct(subs) => shape.Object? && ExpandedMembers(t, shape.args, subs)
            case Enum(subs) =>
              if forall v :: v in subs ==> v.typ == "Null"
              then shape.SimpleEnum? && |shape.names| == |subs| && forall i :: 0 <= i < |subs| ==> shape.names[i] == subs[i].name
              else shape.RichEnum? && ExpandedMembers(t, shape.args, subs)
            case VecFixed(_) => shape == Root(Text)
            case Foreign => shape == Unknown
            case Plain => true
  {
    AllBelow(t, AcyclicRank(t), |t.defs| + 1, ty);
    match ty.body
    case Vec(sub) => ExpandOfPart(t, sub, "");
    case Compact(sub) => ExpandOfPart(t, sub, name);
    case Option(sub) => ExpandOfPart(t, sub, name);
    case Tuple(subs) =>
      forall i | 0 <= i < |subs| ensures Expand(t, ty, name).shape.args[i] == Expand(t, subs[i], Decimal(i)) {
        ExpandOfPart(t, subs[i], Decimal(i));
      }
    case Struct(subs) =>
      forall i | 0 <= i < |subs| ensures Expand(t, ty, name).shape.args[i] == Expand(t, subs[i], subs[i].name) {
        ExpandOfPart(t, subs[i], subs[i].name);
      }
    case Enum(subs) => EnumShapeMeans(t, ty, name);
    case _ =>
  }

  lemma EnumShapeMeans(t: Table, ty: TypeDef, name: string)
    requires !Cyclic(t) && ty.body.Enum?
    ensures var shape, subs := Expand(t, ty, name).shape, ty.body.subs;
            if forall v :: v in subs ==> v.typ == "Null"
            then shape.SimpleEnum? && |shape.names| == |subs| && forall i :: 0 <= i < |subs| ==> shape.names[i] == subs[i].name
            else shape.RichEnum? && ExpandedMembers(t, shape.args, subs)
  {
    AllBelow(t, AcyclicRank(t), |t.defs| + 1, ty);
    var subs := ty.body.subs;
    if Simple(subs) {
      assert forall v :: v in subs ==> v.typ == "Null";
    } else {
      var j :| 0 <= j < |subs| && subs[j].typ != "Null";
      assert subs[j] in subs;
      forall i | 0 <= i < |subs| ensures Expand(t, ty, name).shape.args[i] == Expand(t, subs[i], subs[i].name) {
        ExpandOfPart(t, subs[i], subs[i].name);
      }
    }
  }

  /** The shape of a name: a root type's own, before all else; Null for `Null`; unknown without a definition; and
      else that of the definition, looked up again if it is itself a name. */
  lemma NameShapeMeans(t: Table, ty: TypeDef, name: string)
    requires !Cyclic(t) && ty.body.Plain?
    ensures var shape, n := Expand(t, ty, name).shape, ty.typ;
            if n in t.roots then shape == Root(t.roots[n])
            else if n == "Null" then shape == Null
            else if n !in t.defs then shape == Unknown
            else shape == Expand(t, t.defs[n], "").shape
  {
    var rank, bound, n := AcyclicRank(t), |t.defs| + 1, ty.typ;
    AllBelow(t, rank, bound, ty);
    assert Expand(t, ty, name).shape == GetRootType(t, rank, bound, n);
    if Followed(t, n) {
      var def := t.defs[n];
      AllBelow(t, rank, bound, def);
      if def.body.Plain? {
        RootRankDoesNotMatter(t, rank, rank(n), rank, bound, def.typ);
        assert Expand(t, def, "").shape == GetRootType(t, rank, bound, def.typ);
      } else {
        RankDoesNotMatter(t, rank, rank(n), rank, bound, def, "");
      }
    }
  }

  /** The name of a place in a tuple is its number in decimal notation. */
  function Number(digits: string): nat {
    if digits == [] then 0
    else
      var d := digits[|digits| - 1];
      10 * Number(digits[..|digits| - 1]) + (if '0' <= d <= '9' then d as nat - '0' as nat else 0)
  }

  lemma {:induction false} DecimalMeans(n: nat)
    ensures Decimal(n) != [] && Number(Decimal(n)) == n && (n > 0 ==> Decimal(n)[0] != '0')
    ensures forall c :: c in Decimal(n) ==> '0' <= c <= '9'
  {
    var d := "0123456789"[n % 10];
    assert '0' <= d <= '9' && d as nat - '0' as nat == n % 10;
    if n < 10 {
      assert Decimal(n)[..0] == [];
    } else {
      DecimalMeans(n / 10);
      assert Decimal(n)[..|Decimal(n)| - 1] == Decimal(n / 10);
    }
  }
}
