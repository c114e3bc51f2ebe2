/**
 * The SQL Function node: an operation code and the operands added to it,
 * with per-operation arity limits, rendering to SQL text, an equality
 * that ignores operand order for PLUS and MULTIPLY, and a matching hash.
 */
module SqlFunction {
  import opened Wrappers

  /** Java's int: hash codes and their arithmetic wrap modulo 2^32. */
  newtype int32 = x: int | -0x8000_0000 <= x < 0x8000_0000

  const Modulus: int := 0x1_0000_0000

  /** Two's-complement wrap-around of an unbounded integer into an int. */
  function Wrap(x: int): int32
  {
    (((x + 0x8000_0000) % Modulus) - 0x8000_0000) as int32
  }

  /** Adding a multiple of 2^32 does not change the wrapped value. */
  lemma LemmaWrapShift(x: int, q: int)
    ensures Wrap(x + Modulus * q) == Wrap(x)
  {
  }

  lemma LemmaWrapOf(x: int)
    ensures Wrap(x) as int == x + Modulus * (-((x + 0x8000_0000) / Modulus))
  {
  }

  /** int addition and multiplication commute with wrapping their operands. */
  lemma LemmaWrapAdd(x: int, y: int)
    ensures Wrap(Wrap(x) as int + y) == Wrap(x + y)
  {
    LemmaWrapOf(x);
    LemmaWrapShift(x + y, -((x + 0x8000_0000) / Modulus));
  }

  lemma LemmaWrapMul(m: int, h: int)
    ensures Wrap(Wrap(m) as int * h) == Wrap(m * h)
  {
    var q := -((m + 0x8000_0000) / Modulus);
    LemmaWrapOf(m);
    calc {
      Wrap(m) as int * h;
      (m + Modulus * q) * h;
      m * h + Modulus * (q * h);
    }
    LemmaWrapShift(m * h, q * h);
  }

  /** An operand: its SQL text and its hash code; equal operands have equal hashes. */
  datatype AbstractValue = AbstractValue(sql: string, hash: int32)

  type OperationCode = op: int | 1 <= op <= 11 witness 1

  const COUNT: OperationCode := 1
  const MAX: OperationCode := 2
  const MIN: OperationCode := 3
  const SUM: OperationCode := 4
  const AVG: OperationCode := 5
  const PLUS: OperationCode := 6
  const MINUS: OperationCode := 7
  const MULTIPLY: OperationCode := 8
  const DIVIDE: OperationCode := 9
  const POWER: OperationCode := 10
  const MODULO: OperationCode := 11

  /** The SQL text of each operation, indexed by its code. */
  const Representations: seq<string> := ["", "COUNT(*)", "MAX(", "MIN(",
    "SUM(", "AVG(", " + ", " - ", " * ", " / ", " ^ ", " % "]

  datatype FunctionError = IllegalArgument(message: string) | IllegalState(message: string)

  predicate IsAggregateOperation(op: OperationCode)
  {
    op <= AVG
  }

  /** PLUS and MULTIPLY are the operations whose operands may be reordered. */
  predicate IsCommutative(op: OperationCode)
  {
    op == PLUS || op == MULTIPLY
  }

  /** Whether add accepts one more operand when count are already present. */
  predicate AcceptsOperand(op: OperationCode, count: nat)
  {
    if op == COUNT then false
    else if IsAggregateOperation(op) then count < 1
    else if IsCommutative(op) then true
    else count < 2
  }

  /** The operand counts add can ever reach: none for COUNT, one for aggregates, two for the binary operations. */
  predicate WithinArity(op: OperationCode, count: nat)
  {
    if op == COUNT then count == 0
    else if IsAggregateOperation(op) then count <= 1
    else if IsCommutative(op) then true
    else count <= 2
  }

  /** The operand texts separated by the operator. */
  function Joined(operands: seq<AbstractValue>, separator: string): string
  {
    if operands == [] then ""
    else if |operands| == 1 then operands[0].sql
    else Joined(operands[..|operands| - 1], separator) + separator + operands[|operands| - 1].sql
  }

  /** The SQL text of a function, or the error for too few operands. */
  function SqlOf(op: OperationCode, operands: seq<AbstractValue>): Result<string, FunctionError>
  {
    if op == COUNT then Success("COUNT(*)")
    else if IsAggregateOperation(op) then
      if |operands| < 1 then Failure(IllegalState("This function needs an operand"))
      else Success(Representations[op] + operands[0].sql + ")")
    else
      if |operands| < 2 then Failure(IllegalState("This function needs two operands"))
      else Success("(" + Joined(operands, Representations[op]) + ")")
  }

  /** Rendering fails exactly when an aggregate other than COUNT has no operand or an arithmetic operation has fewer than two. */
  lemma LemmaSqlFailsIff(op: OperationCode, operands: seq<AbstractValue>)
    ensures SqlOf(op, operands).Failure? <==>
      ((COUNT < op <= AVG && |operands| == 0) || (op >= PLUS && |operands| < 2))
    ensures SqlOf(op, operands).Failure? ==> SqlOf(op, operands).error.IllegalState?
  {
  }

  /** Aggregates render as their name applied to the one operand; arithmetic renders parenthesised with the operator between operands. */
  lemma LemmaRendering(op: OperationCode, a: AbstractValue, b: AbstractValue)
    ensures COUNT < op <= AVG ==> SqlOf(op, [a]) == Success(Representations[op] + a.sql + ")")
    ensures op >= PLUS ==> SqlOf(op, [a, b]) == Success("(" + a.sql + Representations[op] + b.sql + ")")
  {
    var sep := Representations[op];
    assert [a, b][..1] == [a];
    assert Joined([a, b], sep) == Joined([a], sep) + sep + b.sql;
    if op >= PLUS {
      assert SqlOf(op, [a, b]) == Success("(" + Joined([a, b], sep) + ")");
      assert "(" + (a.sql + sep + b.sql) + ")" == "(" + a.sql + sep + b.sql + ")";
    }
  }

  /** Appending an operand appends the operator and its text. */
  lemma LemmaJoinedAppend(operands: seq<AbstractValue>, x: AbstractValue, separator: string)
    requires operands != []
    ensures Joined(operands + [x], separator) == Joined(operands, separator) + separator + x.sql
  {
    assert (operands + [x])[..|operands|] == operands;
  }

  /** Only an aggregate renders without a leading parenthesis. */
  lemma LemmaAggregateIffUnparenthesised(op: OperationCode, operands: seq<AbstractValue>)
    requires SqlOf(op, operands).Success?
    ensures IsAggregateOperation(op) <==> SqlOf(op, operands).value[0] != '('
  {
  }

  /** The multiplier the hash gives the operand at position i. */
  function Multiplier(op: OperationCode, i: nat): int
  {
    if IsCommutative(op) then 5 else 5 + 2 * i
  }

  /** The sum of each operand's hash times its multiplier, without wrap-around. */
  function WeightedSum(op: OperationCode, operands: seq<AbstractValue>): int
  {
    if operands == [] then 0
    else WeightedSum(op, operands[..|operands| - 1]) + Multiplier(op, |operands| - 1) * operands[|operands| - 1].hash as int
  }

  /** The hash code: three times the operation plus the weighted operand hashes, wrapped to an int. */
  function HashOf(op: OperationCode, operands: seq<AbstractValue>): int32
  {
    Wrap(op * 3 + WeightedSum(op, operands))
  }

  /** The operand hashes added up. */
  function HashSum(operands: seq<AbstractValue>): int
  {
    if operands == [] then 0 else operands[0].hash as int + HashSum(operands[1..])
  }

  lemma {:induction false} LemmaCommutativeWeightedSum(op: OperationCode, operands: seq<AbstractValue>)
    requires IsCommutative(op)
    ensures WeightedSum(op, operands) == 5 * HashSum(operands)
  {
    if operands != [] {
      var init, x := operands[..|operands| - 1], operands[|operands| - 1];
      LemmaCommutativeWeightedSum(op, init);
      assert operands == init + [x];
      LemmaHashSumAppend(init, [x]);
    }
  }

  lemma {:induction false} LemmaHashSumAppend(xs: seq<AbstractValue>, ys: seq<AbstractValue>)
    ensures HashSum(xs + ys) == HashSum(xs) + HashSum(ys)
  {
    if xs == [] {
      assert xs + ys == ys;
    } else {
      assert (xs + ys)[1..] == xs[1..] + ys;
      LemmaHashSumAppend(xs[1..], ys);
    }
  }

  /** One iteration of the hashCode loop keeps state and multiplier equal to the wrapped closed forms. */
  lemma LemmaHashStep(op: OperationCode, xs: seq<AbstractValue>, i: nat, state: int32, multiplier: int32)
    requires i < |xs|
    requires multiplier == Wrap(Multiplier(op, i))
    requires state == Wrap(op * 3 + WeightedSum(op, xs[..i]))
    ensures Wrap(state as int + Wrap(multiplier as int * xs[i].hash as int) as int) == Wrap(op * 3 + WeightedSum(op, xs[..i + 1]))
    ensures (if IsCommutative(op) then multiplier else Wrap(multiplier as int + 2)) == Wrap(Multiplier(op, i + 1))
  {
    var s := op * 3 + WeightedSum(op, xs[..i]);
    var m := Multiplier(op, i);
    var h := xs[i].hash as int;
    assert xs[..i + 1][..i] == xs[..i];
    assert WeightedSum(op, xs[..i + 1]) == WeightedSum(op, xs[..i]) + m * h;
    LemmaWrapMul(m, h);
    LemmaWrapAdd(s, Wrap(m * h) as int);
    LemmaWrapAdd(m * h, s);
    LemmaWrapAdd(m, 2);
  }

  /** The operand hashes summed in any order give the same total. */
  lemma {:induction false} LemmaHashSumPermutation(xs: seq<AbstractValue>, ys: seq<AbstractValue>)
    requires multiset(xs) == multiset(ys)
    ensures HashSum(xs) == HashSum(ys)
  {
    if xs == [] {
      assert |ys| == |multiset(ys)| == 0;
    } else {
      var x := xs[0];
      assert xs == [x] + xs[1..];
      assert multiset(xs[1..]) == multiset(xs) - multiset{x};
      assert x in multiset(ys);
      var j :| 0 <= j < |ys| && ys[j] == x;
      LemmaWithoutSlot(ys, j);
      LemmaHashSumPermutation(xs[1..], ys[..j] + ys[j + 1..]);
    }
  }

  /** Taking out one slot takes its element out of the multiset and its hash out of the sum. */
  lemma LemmaWithoutSlot(ys: seq<AbstractValue>, j: nat)
    requires j < |ys|
    ensures multiset(ys[..j] + ys[j + 1..]) == multiset(ys) - multiset{ys[j]}
    ensures HashSum(ys) == HashSum(ys[..j] + ys[j + 1..]) + ys[j].hash as int
  {
    LemmaMultisetWithoutSlot(ys, j);
    LemmaHashSumWithoutSlot(ys, j);
  }

  lemma LemmaMultisetWithoutSlot(ys: seq<AbstractValue>, j: nat)
    requires j < |ys|
    ensures multiset(ys[..j] + ys[j + 1..]) == multiset(ys) - multiset{ys[j]}
  {
    assert ys == ys[..j] + [ys[j]] + ys[j + 1..];
  }

  lemma LemmaHashSumWithoutSlot(ys: seq<AbstractValue>, j: nat)
    requires j < |ys|
    ensures HashSum(ys) == HashSum(ys[..j] + ys[j + 1..]) + ys[j].hash as int
  {
    var a, b := ys[..j], ys[j + 1..];
    assert ys == a + ([ys[j]] + b);
    LemmaHashSumAppend(a, [ys[j]] + b);
    LemmaHashSumAppend(a, b);
  }

  /** For PLUS and MULTIPLY the hash does not depend on operand order. */
  lemma LemmaHashPermutation(op: OperationCode, xs: seq<AbstractValue>, ys: seq<AbstractValue>)
    requires IsCommutative(op) && multiset(xs) == multiset(ys)
    ensures HashOf(op, xs) == HashOf(op, ys)
  {
    LemmaCommutativeWeightedSum(op, xs);
    LemmaCommutativeWeightedSum(op, ys);
    LemmaHashSumPermutation(xs, ys);
  }

  /** Function equality: same operation and, for PLUS and MULTIPLY, the same operand multiset, otherwise the same operand sequence. */
  predicate FunctionEquals(op: OperationCode, xs: seq<AbstractValue>, op': OperationCode, ys: seq<AbstractValue>)
  {
    op == op' && if IsCommutative(op) then multiset(xs) == multiset(ys) else xs == ys
  }

  lemma LemmaFunctionEqualsEquivalence(op1: OperationCode, xs1: seq<AbstractValue>, op2: OperationCode, xs2: seq<AbstractValue>,
                                       op3: OperationCode, xs3: seq<AbstractValue>)
    ensures FunctionEquals(op1, xs1, op1, xs1)
    ensures FunctionEquals(op1, xs1, op2, xs2) ==> FunctionEquals(op2, xs2, op1, xs1)
    ensures FunctionEquals(op1, xs1, op2, xs2) && FunctionEquals(op2, xs2, op3, xs3) ==> FunctionEquals(op1, xs1, op3, xs3)
  {
  }

  /** Equal functions have equal hash codes. */
  lemma LemmaHashConsistent(op: OperationCode, xs: seq<AbstractValue>, op': OperationCode, ys: seq<AbstractValue>)
    requires FunctionEquals(op, xs, op', ys)
    ensures HashOf(op, xs) == HashOf(op', ys)
  {
    if IsCommutative(op) {
      LemmaHashPermutation(op, xs, ys);
    }
  }

  /** The occurrence counts equals builds: a count of 1 on first sight, one more on each repeat. */
  function Counts(xs: seq<AbstractValue>): map<AbstractValue, nat>
  {
    if xs == [] then map[]
    else
      var m := Counts(xs[..|xs| - 1]);
      var v := xs[|xs| - 1];
      if v !in m then m[v := 1] else m[v := 1 + m[v]]
  }

  /** The counts are the multiplicities of the operand multiset. */
  lemma {:induction false} LemmaCountsAreMultiplicities(xs: seq<AbstractValue>)
    ensures forall v :: v in Counts(xs) <==> v in multiset(xs)
    ensures forall v | v in Counts(xs) :: Counts(xs)[v] == multiset(xs)[v]
  {
    if xs != [] {
      var init := xs[..|xs| - 1];
      LemmaCountsAreMultiplicities(init);
      assert xs == init + [xs[|xs| - 1]];
    }
  }

  /** Equal count maps is exactly equal operand multisets. */
  lemma LemmaCountsEqualIff(xs: seq<AbstractValue>, ys: seq<AbstractValue>)
    ensures Counts(xs) == Counts(ys) <==> multiset(xs) == multiset(ys)
  {
    LemmaCountsAreMultiplicities(xs);
    LemmaCountsAreMultiplicities(ys);
    if Counts(xs) == Counts(ys) {
      forall v ensures multiset(xs)[v] == multiset(ys)[v] {
        if v in multiset(xs) {
          assert v in Counts(xs);
        } else {
          assert v !in Counts(ys);
        }
      }
      assert multiset(xs) == multiset(ys);
    }
    if multiset(xs) == multiset(ys) {
      assert Counts(xs).Keys == Counts(ys).Keys;
      assert Counts(xs) == Counts(ys);
    }
  }

  /** The counting loop of equals. */
  method CountOperands(xs: seq<AbstractValue>) returns (m: map<AbstractValue, nat>)
    ensures m == Counts(xs)
  {
    m := map[];
    var i := 0;
    while i < |xs|
      invariant i <= |xs| && m == Counts(xs[..i])
    {
      assert xs[..i + 1][..i] == xs[..i];
      var operand := xs[i];
      if operand !in m {
        m := m[operand := 1];
      } else {
        m := m[operand := 1 + m[operand]];
      }
      i := i + 1;
    }
    assert xs[..i] == xs;
  }

  class Function {
    const operation: OperationCode
    var operands: seq<AbstractValue>

    /**
     * The arity limits add enforces hold. Operands only ever arrive through
     * add, so every node keeps this; GetSQLString still checks the counts
     * itself, as getSQLString does.
     */
    ghost predicate Valid()
      reads this
    {
      WithinArity(operation, |operands|)
    }

    constructor (operation: OperationCode)
      ensures this.operation == operation && operands == [] && Valid()
    {
      this.operation := operation;
      operands := [];
    }

    /** The checked constructor: an operation outside 1..11 is an illegal argument. */
    static method Create(operation: int) returns (r: Result<Function, FunctionError>)
      ensures r.Success? <==> 1 <= operation <= 11
      ensures r.Success? ==> fresh(r.value) && r.value.operation == operation && r.value.operands == [] && r.value.Valid()
      ensures r.Failure? ==> r.error.IllegalArgument?
    {
      if operation < 1 || operation > 11 {
        return Failure(IllegalArgument("operation is not valid"));
      }
      var f := new Function(operation);
      r := Success(f);
    }

    /** Appends an operand, or rejects it when the operation cannot take that many. */
    method Add(obj: AbstractValue) returns (r: Outcome<FunctionError>)
      modifies this
      ensures r.Pass? <==> AcceptsOperand(operation, |old(operands)|)
      ensures operation == COUNT ==> r.Fail?
      ensures MAX <= operation <= AVG ==> (r.Pass? <==> |old(operands)| == 0)
      ensures operation in {MINUS, DIVIDE, POWER, MODULO} ==> (r.Pass? <==> |old(operands)| < 2)
      ensures IsCommutative(operation) ==> r.Pass?
      ensures r.Pass? ==> operands == old(operands) + [obj]
      ensures r.Fail? ==> operands == old(operands) && r.error.IllegalArgument?
      ensures old(Valid()) ==> Valid()
    {
      if operation == COUNT {
        return Fail(IllegalArgument("COUNT does not take any operands"));
      } else if IsAggregateOperation(operation) {
        if |operands| >= 1 {
          return Fail(IllegalArgument("This function may only take one operand"));
        }
      } else if !IsCommutative(operation) {
        if |operands| >= 2 {
          return Fail(IllegalArgument("This function may only taketwo operands"));
        }
      }
      operands := operands + [obj];
      r := Pass;
    }

    /** getSQLString: the SQL text, built operand by operand for arithmetic. */
    method GetSQLString() returns (r: Result<string, FunctionError>)
      ensures r == SqlOf(operation, operands)
    {
      if operation == COUNT {
        return Success("COUNT(*)");
      } else if IsAggregateOperation(operation) {
        if |operands| < 1 {
          return Failure(IllegalState("This function needs an operand"));
        }
        return Success(Representations[operation] + operands[0].sql + ")");
      }
      if |operands| < 2 {
        return Failure(IllegalState("This function needs two operands"));
      }
      var retval := "(";
      var needComma := false;
      var i := 0;
      while i < |operands|
        invariant i <= |operands|
        invariant needComma <==> i > 0
        invariant retval == "(" + Joined(operands[..i], Representations[operation])
      {
        var v := operands[i];
        if needComma {
          retval := retval + Representations[operation];
        }
        needComma := true;
        if i > 0 {
          LemmaJoinedAppend(operands[..i], v, Representations[operation]);
        }
        assert operands[..i + 1] == operands[..i] + [v];
        retval := retval + v.sql;
        i := i + 1;
      }
      assert operands[..i] == operands;
      r := Success(retval + ")");
    }

    /** equals: count maps for PLUS and MULTIPLY, operand sequences otherwise. */
    method Equals(other: Function) returns (b: bool)
      ensures b == FunctionEquals(operation, operands, other.operation, other.operands)
    {
      if IsCommutative(operation) {
        var a := CountOperands(operands);
        var c := CountOperands(other.operands);
        LemmaCountsEqualIff(operands, other.operands);
        b := operation == other.operation && a == c;
      } else {
        b := operation == other.operation && operands == other.operands;
      }
    }

    /** hashCode: the multiplier stays 5 for PLUS and MULTIPLY and grows by 2 per operand otherwise. */
    method HashCode() returns (h: int32)
      ensures h == HashOf(operation, operands)
    {
      var multiplier: int32 := 5;
      var state: int32 := (operation * 3) as int32;
      var i := 0;
      while i < |operands|
        invariant i <= |operands|
        invariant multiplier == Wrap(Multiplier(operation, i))
        invariant state == Wrap(operation * 3 + WeightedSum(operation, operands[..i]))
      {
        var hash := operands[i].hash as int;
        LemmaHashStep(operation, operands, i, state, multiplier);
        state := Wrap(state as int + Wrap(multiplier as int * hash) as int);
        if !IsCommutative(operation) {
          multiplier := Wrap(multiplier as int + 2);
        }
        i := i + 1;
      }
      assert operands[..i] == operands;
      h := state;
    }

    /** isAggregate: COUNT, MAX, MIN, SUM and AVG. */
    function IsAggregate(): (b: bool)
      reads this
      ensures b <==> operation in {COUNT, MAX, MIN, SUM, AVG}
    {
      IsAggregateOperation(operation)
    }

    function GetOperation(): (op: int)
      reads this
      ensures 1 <= op <= 11 && op == operation
    {
      operation
    }

    /** The operands, in the order they were added. */
    function GetOperands(): (xs: seq<AbstractValue>)
      reads this
      ensures xs == operands
    {
      operands
    }
  }
}
