/**
 * The type-id registry: every class family that extends HasTids owns a table
 * from a small integer "tid" to one of its member classes, filled by `tid_is`
 * and read by `create`.
 */
module HasTids {
  import opened Wrappers

  /** What `create` builds: the class found in the table, given the caller's arguments. */
  datatype Instance<C, A> = Instance(klass: C, args: A)

  // ---------------------------------------------------------------------
  // Decimal rendering of a tid, as Ruby's string interpolation prints it

  function DigitChar(d: nat): (c: char)
    requires d < 10
    ensures '0' <= c <= '9'
  {
    "0123456789"[d]
  }

  function DigitValue(c: char): nat
  {
    if '0' <= c <= '9' then (c - '0') as nat else 0
  }

  /** The value of a string of decimal digits, most significant first. */
  function DecimalValue(s: string): nat
  {
    if s == [] then 0 else DecimalValue(s[..|s| - 1]) * 10 + DigitValue(s[|s| - 1])
  }

  predicate AllDigits(s: string)
  {
    forall i :: 0 <= i < |s| ==> '0' <= s[i] <= '9'
  }

  /** The shortest decimal spelling of `n`. */
  function NatToDecimal(n: nat): (s: string)
    ensures 1 <= |s| && AllDigits(s)
    ensures |s| > 1 ==> s[0] != '0'
  {
    if n < 10 then [DigitChar(n)] else NatToDecimal(n / 10) + [DigitChar(n % 10)]
  }

  /** Integer#to_s: a minus sign in front of the magnitude for negatives. */
  function IntToDecimal(i: int): (s: string)
    ensures |s| >= 1
    ensures (s[0] == '-') <==> i < 0
  {
    if i < 0 then "-" + NatToDecimal(-i) else NatToDecimal(i)
  }

  lemma DigitRoundTrip(d: nat)
    requires d < 10
    ensures DigitValue(DigitChar(d)) == d
  {
    assert "0123456789"[d] as int == '0' as int + d;
  }

  /** Reading back the decimal spelling gives the number that was spelled. */
  lemma {:induction false} NatToDecimalRoundTrip(n: nat)
    ensures DecimalValue(NatToDecimal(n)) == n
  {
    var s := NatToDecimal(n);
    if n < 10 {
      DigitRoundTrip(n);
    } else {
      NatToDecimalRoundTrip(n / 10);
      DigitRoundTrip(n % 10);
      assert s[..|s| - 1] == NatToDecimal(n / 10);
    }
  }

  lemma NatToDecimalInjective(m: nat, n: nat)
    requires NatToDecimal(m) == NatToDecimal(n)
    ensures m == n
  {
    NatToDecimalRoundTrip(m);
    NatToDecimalRoundTrip(n);
  }

  /** Distinct tids are never spelled the same way in an error message. */
  lemma IntToDecimalInjective(i: int, j: int)
    requires IntToDecimal(i) == IntToDecimal(j)
    ensures i == j
  {
    assert (i < 0) == (j < 0) by {
      assert IntToDecimal(i)[0] == IntToDecimal(j)[0];
    }
    if i < 0 {
      Magnitude(i);
      Magnitude(j);
      NatToDecimalInjective(-i, -j);
    } else {
      NatToDecimalInjective(i, j);
    }
  }

  /** After its minus sign, a negative tid is spelled as its magnitude. */
  lemma Magnitude(i: int)
    requires i < 0
    ensures IntToDecimal(i)[1..] == NatToDecimal(-i)
  {
    assert ("-" + NatToDecimal(-i))[1..] == NatToDecimal(-i);
  }

  // ---------------------------------------------------------------------
  // Lookup-then-construct

  /** The ArgumentError message raised for a tid that has no class. */
  function UnrecognizedMessage(family: string, tid: int): (r: string)
    ensures "Unrecognized type of " + family + ": " <= r
    ensures |r| >= |IntToDecimal(tid)| && r[|r| - |IntToDecimal(tid)|..] == IntToDecimal(tid)
  {
    "Unrecognized type of " + family + ": " + IntToDecimal(tid)
  }

  /**
   * `create(tid, *args)` over a given table: the class stored under `tid`,
   * given `args`, or the ArgumentError naming the family and the tid.
   */
  function Lookup<C, A>(family: string, types: map<int, C>, tid: int, args: A): (r: Result<Instance<C, A>, string>)
    ensures r.Ok? <==> tid in types
    ensures r.Ok? ==> r.value.klass == types[tid] && r.value.args == args
    ensures r.Err? ==> r.error == UnrecognizedMessage(family, tid)
  {
    if tid in types then Ok(Instance(types[tid], args)) else Err(UnrecognizedMessage(family, tid))
  }

  /** An error message names the tid that caused it: two different tids never share one. */
  lemma UnrecognizedMessageNamesTid(family: string, t1: int, t2: int)
    requires UnrecognizedMessage(family, t1) == UnrecognizedMessage(family, t2)
    ensures t1 == t2
  {
    var prefix := "Unrecognized type of " + family + ": ";
    assert UnrecognizedMessage(family, t1)[|prefix|..] == IntToDecimal(t1);
    assert UnrecognizedMessage(family, t2)[|prefix|..] == IntToDecimal(t2);
    IntToDecimalInjective(t1, t2);
  }

  // ---------------------------------------------------------------------
  // The per-family table

  /**
   * A class family extended with HasTids. `types` is the family's own table,
   * shared by its subclasses; `tids` holds each registered class's `@tid`.
   */
  class Registry<C(==)> {
    const name: string
    var types: map<int, C>
    var tids: map<C, int>

    /** `HasTids.extended`: the family starts with a fresh, empty table. */
    constructor (name: string)
      ensures this.name == name
      ensures types == map[] && tids == map[]
    {
      this.name := name;
      types := map[];
      tids := map[];
    }

    /**
     * `tid_is(tid)` on class `klass`: the class remembers its tid and the
     * family table maps `tid` to it; a later registration of the same tid wins.
     */
    method TidIs(klass: C, tid: int)
      modifies this
      ensures types == old(types)[tid := klass]
      ensures tids == old(tids)[klass := tid]
      ensures forall t :: t in old(types) && t != tid ==> t in types && types[t] == old(types)[t]
      ensures Tid(klass) == Some(tid)
    {
      tids := tids[klass := tid];
      types := types[tid := klass];
    }

    /** `attr_reader :tid`: nil for a class that never called `tid_is`. */
    function Tid(klass: C): (r: Option<int>)
      reads this
      ensures r.Some? <==> klass in tids
      ensures r.Some? ==> r.value == tids[klass]
    {
      if klass in tids then Some(tids[klass]) else None
    }

    /**
     * `create(tid, *args)` on the family object: Lookup applied to this
     * family's name and table, which it leaves as it is.
     */
    function Create<A>(tid: int, args: A): (r: Result<Instance<C, A>, string>)
      reads this
      ensures r.Ok? <==> tid in types
      ensures r.Ok? ==> r.value == Instance(types[tid], args)
      ensures r.Err? ==> r.error == UnrecognizedMessage(name, tid)
    {
      Lookup(name, types, tid, args)
    }
  }

  /**
   * Two families extended one after the other: registering in one leaves the
   * other's table empty.
   */
  method SeparateFamilies<C(==)>(klass: C, tid: int) returns (first: Registry<C>, second: Registry<C>)
    ensures fresh(first) && fresh(second) && first != second
    ensures first.types == map[tid := klass] && first.Tid(klass) == Some(tid)
    ensures second.types == map[] && second.Tid(klass) == None
    ensures second.Create(tid, ()).Err?
  {
    first := new Registry("first");
    second := new Registry("second");
    first.TidIs(klass, tid);
  }
}
