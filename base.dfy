/**
 * Shared vocabulary of the workflow model: optional values, results that carry
 * the errors the Python code raises, and a few facts about sequences that the
 * other modules lean on.
 */
module Base {

  datatype Option<+T> = None | Some(value: T)

  /** Every `raise` of the modelled code, as data. */
  datatype Error =
    | TaskWithoutSource                        // TaskSpec needs a file or a text
    | DuplicateTaskIds                         // WorkflowSpec task ids clash
    | DuplicateStepIds                         // WorkflowSpec step ids clash
    | TaskAlreadyRegistered(taskId: string)    // builder register_task
    | UnknownTask(step: string, taskId: string) // builder add_step uses check
    | MalformedBranch                          // Branch(**mapping) rejected
    | MissingGoal                              // compile without a goal
    | MissingMemoryFile                        // compile without a memory path
    | AlreadyRegistered(key: string)           // container registration clash
    | NotRegistered(key: string)               // container lookup miss
    | NoExecutorForKind(kind: string)          // executor factory lookup miss
    | NotImplemented                           // stub executors

  datatype Result<+T> = Success(value: T) | Failure(error: Error)

  /** Python truthiness of an optional string: present and non-empty. */
  predicate Filled(s: Option<string>) {
    s.Some? && s.value != ""
  }

  predicate Distinct<T(==)>(s: seq<T>) {
    forall i, j :: 0 <= i < j < |s| ==> s[i] != s[j]
  }

  function ToSet<T>(s: seq<T>): set<T> {
    set x | x in s
  }

  /**
   * Python's `len({... for x in s}) == len(s)` test: the set of elements is as
   * large as the sequence exactly when no element repeats.
   */
  lemma {:induction false} DistinctIffFullSet<T>(s: seq<T>)
    ensures |ToSet(s)| <= |s|
    ensures |ToSet(s)| == |s| <==> Distinct(s)
  {
    if s != [] {
      var t := s[1..];
      DistinctIffFullSet(t);
      DistinctCons(s);
      assert ToSet(s) == {s[0]} + ToSet(t);
      if s[0] in t {
        assert ToSet(s) == ToSet(t);
      } else {
        assert s[0] !in ToSet(t);
      }
    }
  }

  /** A non-empty sequence is distinct when its head does not recur and its tail is distinct. */
  lemma DistinctCons<T>(s: seq<T>)
    requires s != []
    ensures Distinct(s) <==> s[0] !in s[1..] && Distinct(s[1..])
  {
    var t := s[1..];
    if s[0] in t {
      var k :| 0 <= k < |t| && t[k] == s[0];
      assert s[0] == s[k + 1];
    }
    if !Distinct(t) {
      var i, j :| 0 <= i < j < |t| && t[i] == t[j];
      assert s[i + 1] == s[j + 1];
    }
    if s[0] !in t && Distinct(t) {
      forall i, j | 0 <= i < j < |s| ensures s[i] != s[j] {
        assert s[j] == t[j - 1];
        if i > 0 {
          assert s[i] == t[i - 1];
        }
      }
    }
  }

  lemma DistinctAppend<T>(s: seq<T>, x: T)
    requires Distinct(s) && x !in s
    ensures Distinct(s + [x])
  {
  }

  /** Python's `sep.join(parts)`. */
  function Join(sep: string, parts: seq<string>): string {
    if parts == [] then ""
    else if |parts| == 1 then parts[0]
    else parts[0] + sep + Join(sep, parts[1..])
  }

  function DigitChar(d: nat): char
    requires d < 10
  {
    "0123456789"[d]
  }

  function NatDigits(n: nat): string
    decreases n
  {
    if n < 10 then [DigitChar(n)] else NatDigits(n / 10) + [DigitChar(n % 10)]
  }

  /** Python's `str(n)` for an integer: decimal digits, a leading '-' when negative. */
  function Decimal(n: int): string {
    if n < 0 then "-" + NatDigits(-n) else NatDigits(n)
  }
}
