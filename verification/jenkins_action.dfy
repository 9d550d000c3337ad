/** The argparse action that turns the literal string "None" passed by a
    parametrized Jenkins job back into Python's `None`
    (jenkins-master/jobs/scripts/workspace/jenkins.py). */
module JenkinsAction {
  import opened Values

  /** One element of an argument list: `value if value != 'None' else None`. */
  function ResetNone(v: Value): (r: Value)
    ensures v == Str("None") ==> r == Null
    ensures v != Str("None") ==> r == v
  {
    if v == Str("None") then Null else v
  }

  /** What the action stores for the parsed `values`. */
  function Normalize(values: Value): (r: Value)
    ensures values == Str("None") ==> r == Null
    ensures values.Str? && values.s != "None" ==> r == values
    ensures values.List? ==> r.List? && |r.items| == |values.items|
    ensures values.List? ==> forall k :: 0 <= k < |values.items| ==>
              (values.items[k] == Str("None") ==> r.items[k] == Null) &&
              (values.items[k] != Str("None") ==> r.items[k] == values.items[k])
    ensures !values.Str? && !values.List? ==> r == values
  {
    match values
    case Str(_) => ResetNone(values)
    case List(xs) => List(seq(|xs|, k requires 0 <= k < |xs| => ResetNone(xs[k])))
    case _ => values
  }

  /** `__call__`: only the attribute named by `dest` is written. */
  function Call(namespace: Props, dest: string, values: Value): (r: Props)
    ensures r.Keys == namespace.Keys + {dest}
    ensures r[dest] == Normalize(values)
    ensures forall k :: k in namespace && k != dest ==> r[k] == namespace[k]
  {
    namespace[dest := Normalize(values)]
  }

  /** Normalizing an already normalized value changes nothing. */
  lemma NormalizeIdempotent(values: Value)
    ensures Normalize(Normalize(values)) == Normalize(values)
  {
    if values.List? {
      var once := Normalize(values);
      assert Normalize(once).items == once.items;
    }
  }

  /** Feeding the stored value through the action again leaves the namespace as it was. */
  lemma CallIdempotent(namespace: Props, dest: string, values: Value)
    ensures Call(Call(namespace, dest, values), dest, Normalize(values)) == Call(namespace, dest, values)
  {
    NormalizeIdempotent(values);
  }
}
