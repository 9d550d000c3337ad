/** The buildbot exit-code taxonomy: a tuple of names whose positions are
    the exit codes, with attribute access mapped to `tuple.index`. */
module BuildBot {
  import opened Wrappers

  /** `BuildExitCode`, in ordinal order. The order is the wire contract. */
  const Names: seq<string> :=
    ["success", "testfailed", "busted", "skipped", "exception", "retry", "usercancel"]

  const CodeSuccess: nat := 0
  const CodeTestFailed: nat := 1
  const CodeBusted: nat := 2
  const CodeSkipped: nat := 3
  const CodeException: nat := 4
  const CodeRetry: nat := 5
  const CodeUserCancel: nat := 6

  /** Whether `BuildExitCode[i]` succeeds: Python tuple indexing, where a
      negative index counts from the end. */
  predicate ValidIndex(i: int) {
    -|Names| <= i < |Names|
  }

  /** `BuildExitCode[i]`. */
  function NameAt(i: int): (r: Result<string>)
    ensures r.Success? <==> -7 <= i <= 6
    ensures 0 <= i <= 6 ==> r == Success(Names[i])
    ensures -7 <= i < 0 ==> r == Success(Names[i + 7])
  {
    if 0 <= i < |Names| then Success(Names[i])
    else if -|Names| <= i < 0 then Success(Names[i + |Names|])
    else Failure(IndexError(i))
  }

  /** The first position of `x` in `xs`, as `tuple.index`. */
  function FirstIndex(xs: seq<string>, x: string): (r: Result<nat>)
    ensures r.Success? <==> x in xs
    ensures r.Success? ==> r.value < |xs| && xs[r.value] == x && x !in xs[..r.value]
  {
    if |xs| == 0 then Failure(ValueError("not in tuple"))
    else if xs[0] == x then Success(0)
    else
      match FirstIndex(xs[1..], x)
      case Success(k) =>
        assert xs[..k + 1] == [xs[0]] + xs[1..][..k];
        Success(k + 1)
      case Failure(e) => Failure(e)
  }

  /** `BuildExitCode.<name>`: the ordinal of a name. */
  function Ordinal(name: string): (r: Result<nat>)
    ensures r.Success? <==> name in Names
    ensures r.Success? ==> r.value < |Names| && Names[r.value] == name
  {
    FirstIndex(Names, name)
  }

  /** No name appears twice, so attribute lookup is a well-defined inverse. */
  lemma NamesDistinct()
    ensures forall i, j :: 0 <= i < j < |Names| ==> Names[i] != Names[j]
  {
  }

  /** The ordinals of the seven names. */
  lemma OrdinalTable()
    ensures Ordinal("success") == Success(CodeSuccess)
    ensures Ordinal("testfailed") == Success(CodeTestFailed)
    ensures Ordinal("busted") == Success(CodeBusted)
    ensures Ordinal("skipped") == Success(CodeSkipped)
    ensures Ordinal("exception") == Success(CodeException)
    ensures Ordinal("retry") == Success(CodeRetry)
    ensures Ordinal("usercancel") == Success(CodeUserCancel)
  {
    OrdinalOfName(0);
    OrdinalOfName(1);
    OrdinalOfName(2);
    OrdinalOfName(3);
    OrdinalOfName(4);
    OrdinalOfName(5);
    OrdinalOfName(6);
  }

  /** Looking up the name of an ordinal and then its ordinal gives the ordinal back. */
  lemma OrdinalOfName(i: nat)
    requires i < |Names|
    ensures NameAt(i).Success?
    ensures Ordinal(NameAt(i).value) == Success(i)
  {
    NamesDistinct();
    var r := Ordinal(Names[i]);
    assert r.Success?;
    assert Names[r.value] == Names[i];
  }

  /** Looking up the ordinal of a name and then its name gives the name back. */
  lemma NameOfOrdinal(name: string)
    requires name in Names
    ensures Ordinal(name).Success?
    ensures NameAt(Ordinal(name).value) == Success(name)
  {
  }
}
