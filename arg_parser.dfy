// Overload resolution for the client's public calls (parseArgs in
// lib/Neo4jUtils.js): a greedy, single-pass matcher of an argument list
// against a declarative format, with a skip budget equal to the deficit.

module ArgParser {
  import opened Values

  /** One element of a format: a bare name (any one argument), or a described
      parameter. A property that is not given, or given as "", is falsy in the
      source and is written "" (or None) here; `needs` is the source's
      `requires` property. */
  datatype Item =
    | Plain(name: string)
    | Spec(name: string, typ: string, nTyp: string, instance: Option<Ctor>, nInstance: Option<Ctor>,
           optional: bool, mutex: string, needs: string, requiredBy: string)

  datatype ParseError = NotEnoughArguments | InvalidArguments

  datatype Result<+T> = Ok(value: T) | Err(error: ParseError)

  /** A described parameter that is optional, or becomes so by naming a
      relation to an earlier one. */
  predicate ImpliedOptional(it: Item)
  {
    it.Spec? && (it.optional || it.mutex != "" || it.needs != "" || it.requiredBy != "")
  }

  /** The item after the first call has set `optional = true` on it. */
  function Normalized(it: Item): (r: Item)
    ensures r.name == it.name && ImpliedOptional(r) == ImpliedOptional(it)
    ensures r.Spec? ==> r.optional == ImpliedOptional(it)
  {
    if ImpliedOptional(it) then it.(optional := true) else it
  }

  function Normalize(items: seq<Item>): (r: seq<Item>)
    ensures |r| == |items|
  {
    seq(|items|, i requires 0 <= i < |items| => Normalized(items[i]))
  }

  predicate IsNormalized(items: seq<Item>)
  {
    forall i :: 0 <= i < |items| ==> items[i].Spec? ==> items[i].optional == ImpliedOptional(items[i])
  }

  /** format._optional: the number of items that are optional, explicitly or
      by implication. */
  function CountOptional(items: seq<Item>): nat
  {
    if items == [] then 0
    else CountOptional(items[..|items| - 1]) + (if ImpliedOptional(items[|items| - 1]) then 1 else 0)
  }

  /** The state of the resolution loop after some items: the record built so
      far, the index of the next argument, and the two counters. */
  datatype Cursor = Cursor(result: map<string, Value>, argDex: nat, included: nat, skipped: nat)

  /** The type, instance and relation checks that make an argument unfit for
      a described parameter. */
  predicate Rejects(it: Item, arg: Value, result: map<string, Value>)
    requires it.Spec?
  {
    || (it.typ != "" && TypeOf(arg) != it.typ)
    || (it.nTyp != "" && TypeOf(arg) == it.nTyp)
    || (it.instance.Some? && !InstanceOf(arg, it.instance.value))
    || (it.nInstance.Some? && InstanceOf(arg, it.nInstance.value))
    || (it.mutex != "" && Lookup(result, it.mutex) != Undef)
    || (it.needs != "" && Lookup(result, it.needs) == Undef)
  }

  /** One iteration of the resolution loop (lines 181-224 of the source). */
  function Step(c: Cursor, it: Item, args: seq<Value>, optCount: int, deficit: int): Result<Cursor>
  {
    var arg := At(args, c.argDex);
    if it.Plain? then
      Ok(c.(result := c.result[it.name := arg], argDex := c.argDex + 1))
    else if Rejects(it, arg, c.result) then
      if it.optional && c.skipped < deficit && (it.requiredBy == "" || Lookup(c.result, it.requiredBy) == Undef) then
        Ok(c.(result := c.result[it.name := Undef], skipped := c.skipped + 1))
      else
        Err(InvalidArguments)
    else if it.optional && optCount - c.included <= deficit then
      Ok(c.(result := c.result[it.name := Undef], skipped := c.skipped + 1))
    else
      Ok(c.(result := c.result[it.name := arg], argDex := c.argDex + 1,
            included := if it.optional then c.included + 1 else c.included))
  }

  /** What one iteration does. A bare name always consumes the next argument.
      A described item that rejects the argument is recorded absent only when
      it is optional, the skips are still below the deficit and its requiredBy
      partner is absent; otherwise resolution fails. A matching optional item
      consumes its argument only while more optional items remain unincluded
      than the deficit. Every other entry of the record is left as it was. */
  lemma StepShape(c: Cursor, it: Item, args: seq<Value>, optCount: int, deficit: int) returns (r: Result<Cursor>)
    ensures r == Step(c, it, args, optCount, deficit)
    ensures it.Plain? ==> r == Ok(c.(result := c.result[it.name := At(args, c.argDex)], argDex := c.argDex + 1))
    ensures it.Spec? && Rejects(it, At(args, c.argDex), c.result) ==>
      (r.Ok? <==> it.optional && c.skipped < deficit && (it.requiredBy == "" || Lookup(c.result, it.requiredBy) == Undef))
    ensures it.Spec? && !Rejects(it, At(args, c.argDex), c.result) ==> r.Ok?
    ensures it.Spec? && !Rejects(it, At(args, c.argDex), c.result) && it.optional ==>
      (r.value.argDex == c.argDex + 1 <==> optCount - c.included > deficit)
    ensures r.Ok? ==> r.value.result.Keys == c.result.Keys + {it.name}
    ensures r.Ok? ==> forall k :: k in c.result && k != it.name ==> r.value.result[k] == c.result[k]
    ensures r.Ok? ==>
      || (r.value.argDex == c.argDex + 1 && r.value.skipped == c.skipped && r.value.result[it.name] == At(args, c.argDex))
      || (it.Spec? && it.optional && r.value.argDex == c.argDex && r.value.skipped == c.skipped + 1
          && r.value.included == c.included && r.value.result[it.name] == Undef)
  {
    r := Step(c, it, args, optCount, deficit);
  }

  /** The loop over the first n items; the first error ends it. */
  function Run(items: seq<Item>, args: seq<Value>, optCount: int, n: nat): Result<Cursor>
    requires n <= |items|
  {
    if n == 0 then Ok(Cursor(map[], 0, 0, 0))
    else
      match Run(items, args, optCount, n - 1)
      case Err(e) => Err(e)
      case Ok(c) => Step(c, items[n - 1], args, optCount, |items| - |args|)
  }

  /** One more item of the loop: the step taken from the cursor so far. */
  lemma RunNext(items: seq<Item>, args: seq<Value>, optCount: int, k: nat, c: Cursor)
    requires 0 < k <= |items| && Run(items, args, optCount, k - 1) == Ok(c)
    ensures Run(items, args, optCount, k) == Step(c, items[k - 1], args, optCount, |items| - |args|)
  {
  }

  /** cs[k] is the cursor before item k and each step leads to the next one,
      starting from the empty record. */
  predicate Chain(items: seq<Item>, args: seq<Value>, optCount: int, cs: seq<Cursor>)
  {
    && 0 < |cs| <= |items| + 1 && cs[0] == Cursor(map[], 0, 0, 0)
    && forall k :: 0 <= k < |cs| - 1 ==> Step(cs[k], items[k], args, optCount, |items| - |args|) == Ok(cs[k + 1])
  }

  lemma ChainExtend(items: seq<Item>, args: seq<Value>, optCount: int, cs: seq<Cursor>, c: Cursor)
    requires Chain(items, args, optCount, cs) && |cs| <= |items|
    requires Step(cs[|cs| - 1], items[|cs| - 1], args, optCount, |items| - |args|) == Ok(c)
    ensures Chain(items, args, optCount, cs + [c])
  {
    var cs' := cs + [c];
    forall k | 0 <= k < |cs'| - 1
      ensures Step(cs'[k], items[k], args, optCount, |items| - |args|) == Ok(cs'[k + 1])
    {
      if k < |cs| - 1 {
        assert cs'[k] == cs[k] && cs'[k + 1] == cs[k + 1];
      }
    }
  }

  /** The loop over the first |cs| - 1 items ends on the last cursor of a
      chain, and an error in the step after it ends the loop. */
  lemma {:induction false} RunFromChain(items: seq<Item>, args: seq<Value>, optCount: int, cs: seq<Cursor>)
    requires Chain(items, args, optCount, cs)
    ensures Run(items, args, optCount, |cs| - 1) == Ok(cs[|cs| - 1])
    decreases |cs|
  {
    if |cs| > 1 {
      var init := cs[..|cs| - 1];
      assert Chain(items, args, optCount, init) by {
        forall k | 0 <= k < |init| - 1
          ensures Step(init[k], items[k], args, optCount, |items| - |args|) == Ok(init[k + 1])
        {
          assert init[k] == cs[k] && init[k + 1] == cs[k + 1];
        }
      }
      RunFromChain(items, args, optCount, init);
      RunNext(items, args, optCount, |cs| - 1, cs[|cs| - 2]);
    }
  }

  /** A chain through every item resolves the call to its last record. */
  lemma ResolveFromChain(declared: seq<Item>, args: seq<Value>, cs: seq<Cursor>)
    requires |declared| - |args| <= CountOptional(declared)
    requires Chain(Normalize(declared), args, CountOptional(declared), cs) && |cs| == |declared| + 1
    ensures Resolve(declared, args) == Ok(cs[|declared|].result)
  {
    RunFromChain(Normalize(declared), args, CountOptional(declared), cs);
  }

  /** parseArgs on a format as declared: normalise, count the optional items,
      refuse a deficit larger than that count, then run the loop. */
  function Resolve(declared: seq<Item>, args: seq<Value>): Result<map<string, Value>>
  {
    var items := Normalize(declared);
    var optCount := CountOptional(declared);
    if |declared| - |args| > optCount then Err(NotEnoughArguments)
    else
      match Run(items, args, optCount, |items|)
      case Err(e) => Err(e)
      case Ok(c) => Ok(c.result)
  }

  /** A format array: the items as the source holds them and the cached
      `_optional` count, which stays 0 until a call computes it. */
  class Format {
    ghost const declared: seq<Item>
    var items: seq<Item>
    var optionalCount: nat

    ghost predicate Valid()
      reads this
    {
      && (items == declared || items == Normalize(declared))
      && (optionalCount != 0 ==> items == Normalize(declared) && optionalCount == CountOptional(declared))
    }

    constructor (items: seq<Item>)
      ensures Valid() && declared == items && this.items == items && optionalCount == 0
    {
      declared := items;
      this.items := items;
      optionalCount := 0;
    }

    /** parseArgs(args, this). The first call normalises the items and caches
        their optional count; every call returns what Resolve specifies. */
    method ParseArgs(args: seq<Value>) returns (r: Result<map<string, Value>>)
      requires Valid()
      modifies this
      ensures Valid()
      ensures items == Normalize(declared) && optionalCount == CountOptional(declared)
      ensures r == Resolve(declared, args)
    {
      if optionalCount == 0 {
        CountOptionalItems();
      }
      r := ResolveLoop(items, args, optionalCount);
    }

    /** The first-call pass, writing its result back into the format. */
    method CountOptionalItems()
      requires Valid()
      modifies this
      ensures Valid()
      ensures items == Normalize(declared) && optionalCount == CountOptional(declared)
    {
      NormalizeIdempotent(declared);
      CountOptionalNormalize(declared);
      var normalized, count := NormalizeAndCount(items);
      items, optionalCount := normalized, count;
    }
  }

  /** The first-call pass over a format: mark every implied-optional item
      optional and count them. */
  method NormalizeAndCount(start: seq<Item>) returns (items: seq<Item>, count: nat)
    ensures items == Normalize(start) && count == CountOptional(start)
  {
    items := start;
    count := 0;
    var x := 0;
    while x < |items|
      invariant 0 <= x <= |items| == |start|
      invariant forall k :: 0 <= k < x ==> items[k] == Normalized(start[k])
      invariant forall k :: x <= k < |items| ==> items[k] == start[k]
      invariant count == CountOptional(start[..x])
    {
      assert start[..x + 1][..x] == start[..x];
      if ImpliedOptional(items[x]) {
        items := items[x := items[x].(optional := true)];
        count := count + 1;
      }
      x := x + 1;
    }
    assert start[..x] == start;
  }

  /** The body of parseArgs once the items are normalised and counted. */
  method ResolveLoop(items: seq<Item>, args: seq<Value>, optCount: nat) returns (r: Result<map<string, Value>>)
    ensures r == if |items| - |args| > optCount then Err(NotEnoughArguments)
                 else match Run(items, args, optCount, |items|)
                      case Err(e) => Err(e)
                      case Ok(c) => Ok(c.result)
  {
    var deficit := |items| - |args|;
    if deficit > optCount {
      return Err(NotEnoughArguments);
    }
    var c := Cursor(map[], 0, 0, 0);
    var i := 0;
    while i < |items|
      invariant 0 <= i <= |items|
      invariant Run(items, args, optCount, i) == Ok(c)
    {
      var next := Advance(c, items[i], args, optCount, deficit);
      if next.Err? {
        RunStopsAtError(items, args, optCount, i + 1, |items|);
        return Err(next.error);
      }
      c := next.value;
      i := i + 1;
    }
    r := Ok(c.result);
  }

  /** One iteration of the resolution loop: check the item against the next
      argument and either bind it, record it absent, or fail. */
  method Advance(c: Cursor, item: Item, args: seq<Value>, optCount: int, deficit: int) returns (r: Result<Cursor>)
    ensures r == Step(c, item, args, optCount, deficit)
  {
    var result, argDex, included, skipped := c.result, c.argDex, c.included, c.skipped;
    var arg := At(args, argDex);
    if item.Plain? {
      result := result[item.name := arg];
      argDex := argDex + 1;
    } else if Rejects(item, arg, result) {
      if item.optional && skipped < deficit && (item.requiredBy == "" || Lookup(result, item.requiredBy) == Undef) {
        result := result[item.name := Undef];
        skipped := skipped + 1;
      } else {
        return Err(InvalidArguments);
      }
    } else if item.optional && optCount - included <= deficit {
      // a matching optional item that the budget cannot afford to include
      skipped := skipped + 1;
      result := result[item.name := Undef];
    } else {
      if item.optional {
        included := included + 1;
      }
      result := result[item.name := arg];
      argDex := argDex + 1;
    }
    r := Ok(Cursor(result, argDex, included, skipped));
  }

  lemma {:induction false} RunStopsAtError(items: seq<Item>, args: seq<Value>, optCount: int, n: nat, m: nat)
    requires n <= m <= |items|
    requires Run(items, args, optCount, n).Err?
    ensures Run(items, args, optCount, m) == Run(items, args, optCount, n)
    decreases m - n
  {
    if n < m {
      RunStopsAtError(items, args, optCount, n, m - 1);
    }
  }

  lemma {:induction false} NormalizeIdempotent(d: seq<Item>)
    ensures Normalize(Normalize(d)) == Normalize(d)
    ensures IsNormalized(Normalize(d))
  {
  }

  lemma {:induction false} CountOptionalNormalize(d: seq<Item>)
    ensures CountOptional(Normalize(d)) == CountOptional(d)
    decreases |d|
  {
    if d != [] {
      assert Normalize(d)[..|d| - 1] == Normalize(d[..|d| - 1]);
      CountOptionalNormalize(d[..|d| - 1]);
    }
  }

  /** A format without optional items is left as declared. */
  lemma {:induction false} NoOptionalNormalizesToItself(d: seq<Item>)
    requires CountOptional(d) == 0
    ensures Normalize(d) == d
    decreases |d|
  {
    if d != [] {
      NoOptionalNormalizesToItself(d[..|d| - 1]);
      assert Normalize(d)[..|d| - 1] == Normalize(d[..|d| - 1]);
      assert d == d[..|d| - 1] + [d[|d| - 1]];
    }
  }

  /** The loop never produces the deficit error: that is raised only before it. */
  lemma {:induction false} RunOnlyInvalid(items: seq<Item>, args: seq<Value>, optCount: int, n: nat)
    requires n <= |items|
    ensures Run(items, args, optCount, n) != Err(NotEnoughArguments)
  {
    if n > 0 {
      RunOnlyInvalid(items, args, optCount, n - 1);
    }
  }

  /** "Not enough arguments provided." is thrown exactly when the deficit
      exceeds the number of optional items. */
  lemma NotEnoughExactly(declared: seq<Item>, args: seq<Value>)
    ensures Resolve(declared, args) == Err(NotEnoughArguments) <==> |declared| - |args| > CountOptional(declared)
  {
    RunOnlyInvalid(Normalize(declared), args, CountOptional(declared), |declared|);
  }

  ghost function Names(items: seq<Item>, n: nat): set<string>
    requires n <= |items|
  {
    set k | 0 <= k < n :: items[k].name
  }

  /** Every item read so far has its name in the record, and nothing else does. */
  lemma {:induction false} RunBindsNames(items: seq<Item>, args: seq<Value>, optCount: int, n: nat)
    requires n <= |items|
    requires Run(items, args, optCount, n).Ok?
    ensures Run(items, args, optCount, n).value.result.Keys == Names(items, n)
  {
    if n > 0 {
      RunBindsNames(items, args, optCount, n - 1);
      assert Names(items, n) == Names(items, n - 1) + {items[n - 1].name};
    }
  }

  /** On success the record has exactly one entry per name in the format. */
  lemma ResolveBindsEveryName(declared: seq<Item>, args: seq<Value>)
    requires Resolve(declared, args).Ok?
    ensures Resolve(declared, args).value.Keys == Names(declared, |declared|)
  {
    var items := Normalize(declared);
    RunBindsNames(items, args, CountOptional(declared), |items|);
    forall k | 0 <= k < |items| ensures items[k].name == declared[k].name { }
    assert Names(items, |items|) == Names(declared, |declared|);
  }

  lemma {:induction false} CountOptionalPrefix(items: seq<Item>, n: nat, m: nat)
    requires n <= m <= |items|
    ensures CountOptional(items[..n]) <= CountOptional(items[..m])
    ensures n < m && ImpliedOptional(items[n]) ==> CountOptional(items[..n]) < CountOptional(items[..m])
    decreases m - n
  {
    if n < m {
      CountOptionalPrefix(items, n, m - 1);
      assert items[..m][..m - 1] == items[..m - 1];
    }
  }

  /** The counters of a successful prefix: every optional item is either
      included or skipped, every other item consumes one argument, and the
      skips never exceed the deficit (none at all when it is not positive). */
  lemma {:induction false} RunCounters(items: seq<Item>, args: seq<Value>, n: nat)
    requires n <= |items| && IsNormalized(items)
    requires Run(items, args, CountOptional(items), n).Ok?
    ensures var c := Run(items, args, CountOptional(items), n).value;
      && c.included + c.skipped == CountOptional(items[..n])
      && c.argDex + c.skipped == n
      && (c.skipped == 0 || c.skipped <= |items| - |args|)
  {
    var opt := CountOptional(items);
    if n > 0 {
      RunCounters(items, args, n - 1);
      var c := Run(items, args, opt, n - 1).value;
      var r := StepShape(c, items[n - 1], args, opt, |items| - |args|);
      assert items[..n][..n - 1] == items[..n - 1];
      CountOptionalPrefix(items, n - 1, |items|);
      assert items[..|items|] == items;
    }
  }

  /** The skip budget of a whole resolution is max(0, deficit). */
  lemma SkipBudget(declared: seq<Item>, args: seq<Value>)
    requires Resolve(declared, args).Ok?
    ensures var c := Run(Normalize(declared), args, CountOptional(declared), |declared|).value;
      && c.skipped <= (if |declared| > |args| then |declared| - |args| else 0)
      && c.argDex == |declared| - c.skipped
  {
    var items := Normalize(declared);
    NormalizeIdempotent(declared);
    CountOptionalNormalize(declared);
    RunCounters(items, args, |items|);
  }

  /** What a described item admits: absence, or a value passing its type and
      instance checks. */
  predicate Admits(it: Item, v: Value)
  {
    it.Plain? || v == Undef ||
    (&& (it.typ == "" || TypeOf(v) == it.typ)
     && (it.nTyp == "" || TypeOf(v) != it.nTyp)
     && (it.instance.None? || InstanceOf(v, it.instance.value))
     && (it.nInstance.None? || !InstanceOf(v, it.nInstance.value)))
  }

  predicate DistinctNames(items: seq<Item>)
  {
    forall i, j :: 0 <= i < j < |items| ==> items[i].name != items[j].name
  }

  lemma {:induction false} RunAdmits(items: seq<Item>, args: seq<Value>, optCount: int, n: nat)
    requires n <= |items| && DistinctNames(items)
    requires Run(items, args, optCount, n).Ok?
    ensures forall k :: 0 <= k < n ==>
      items[k].name in Run(items, args, optCount, n).value.result &&
      Admits(items[k], Run(items, args, optCount, n).value.result[items[k].name])
  {
    if n > 0 {
      RunAdmits(items, args, optCount, n - 1);
      var c := Run(items, args, optCount, n - 1).value;
      var it := items[n - 1];
      var r := StepShape(c, it, args, optCount, |items| - |args|);
      var m := r.value.result;
      assert it.name in m && Admits(it, m[it.name]);
      forall k | 0 <= k < n - 1
        ensures items[k].name in m && Admits(items[k], m[items[k].name])
      {
        assert items[k].name != it.name;
        assert items[k].name in c.result && Admits(items[k], c.result[items[k].name]);
      }
    }
  }

  /** On success every described parameter is absent or holds an argument of
      the declared type and instance. */
  lemma ResolveAdmits(declared: seq<Item>, args: seq<Value>, k: nat)
    requires DistinctNames(declared) && k < |declared|
    requires Resolve(declared, args).Ok?
    ensures declared[k].name in Resolve(declared, args).value
    ensures Admits(declared[k], Resolve(declared, args).value[declared[k].name])
  {
    var items := Normalize(declared);
    RunAdmits(items, args, CountOptional(declared), |items|);
    assert items[k].name == declared[k].name;
  }

  /** An item that always takes the next argument: a bare name, or a
      described item with no checks that is not optional. */
  predicate TakesAnything(it: Item)
  {
    it.Plain? || (!ImpliedOptional(it) && it.typ == "" && it.nTyp == "" && it.instance.None? && it.nInstance.None?)
  }

  /** No later item is named like the first. */
  predicate FirstNameUnique(items: seq<Item>)
  {
    |items| > 0 && forall j :: 0 < j < |items| ==> items[j].name != items[0].name
  }

  lemma {:induction false} RunKeepsFirst(items: seq<Item>, args: seq<Value>, optCount: int, n: nat)
    requires 1 <= n <= |items| && FirstNameUnique(items) && TakesAnything(items[0])
    requires Run(items, args, optCount, n).Ok?
    ensures items[0].name in Run(items, args, optCount, n).value.result
    ensures Run(items, args, optCount, n).value.result[items[0].name] == At(args, 0)
  {
    if n > 1 {
      RunKeepsFirst(items, args, optCount, n - 1);
      var c := Run(items, args, optCount, n - 1).value;
      var r := StepShape(c, items[n - 1], args, optCount, |items| - |args|);
      assert items[n - 1].name != items[0].name;
    }
  }

  /** A first item that takes anything is bound to the first argument. */
  lemma ResolveBindsFirst(declared: seq<Item>, args: seq<Value>)
    requires FirstNameUnique(declared) && TakesAnything(declared[0])
    requires Resolve(declared, args).Ok?
    ensures declared[0].name in Resolve(declared, args).value
    ensures Resolve(declared, args).value[declared[0].name] == At(args, 0)
  {
    var items := Normalize(declared);
    assert items[0] == declared[0];
    assert FirstNameUnique(items) by {
      forall j | 0 < j < |items| ensures items[j].name != items[0].name {
        assert items[j].name == declared[j].name;
      }
    }
    RunKeepsFirst(items, args, CountOptional(declared), |items|);
  }
}
