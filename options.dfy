/**
 * Option handling of the upload session: the shallow object merge `extendObj`
 * and the effective options it yields when the constructor merges the
 * caller's options with the defaults.
 */
module Options {

  /** The JavaScript values an option may hold, as far as the model needs them. */
  datatype OptionValue = Num(n: int) | Text(s: string) | Flag(b: bool)

  /** The defaults the constructor declares. */
  const DefaultConcurrentParts: nat := 5
  const DefaultWaitTime: nat := 60000
  const DefaultRetries: nat := 5
  const DefaultMaxPartSize: nat := 5 * 1024 * 1024

  function Defaults(): map<string, OptionValue>
  {
    map["concurrentParts" := Num(DefaultConcurrentParts as int),
        "waitTime" := Num(DefaultWaitTime as int),
        "retries" := Num(DefaultRetries as int),
        "maxPartSize" := Num(DefaultMaxPartSize as int)]
  }

  /** The four options the session reads. */
  datatype Effective = Effective(concurrentParts: nat, waitTime: nat, retries: nat, maxPartSize: nat)

  /**
   * `extendObj(a, b)`: copies every own key of `b` onto `a`, one key at a
   * time, and returns `a`. Keys of `b` win; keys only in `a` keep their value.
   */
  method ExtendObj<K, V>(a: map<K, V>, b: map<K, V>) returns (r: map<K, V>)
    ensures forall k :: k in r <==> k in a || k in b
    ensures forall k :: k in b ==> r[k] == b[k]
    ensures forall k :: k in a && k !in b ==> r[k] == a[k]
  {
    r := a;
    var todo := b.Keys;
    while todo != {}
      invariant todo <= b.Keys
      invariant forall k :: k in r <==> k in a || (k in b && k !in todo)
      invariant forall k :: k in r ==> r[k] == if k in b && k !in todo then b[k] else a[k]
      decreases |todo|
    {
      var x :| x in todo;
      r := r[x := b[x]];
      todo := todo - {x};
    }
  }

  /**
   * The constructor's `options = extendObj(options, defaultOptions)`: the
   * arguments are in the order that lets the defaults overwrite whatever the
   * caller passed, so the effective options are always the defaults.
   */
  method MergeOptions(user: map<string, OptionValue>) returns (o: Effective)
    ensures o == Effective(DefaultConcurrentParts, DefaultWaitTime, DefaultRetries, DefaultMaxPartSize)
  {
    var merged := ExtendObj(user, Defaults());
    o := Effective(NatOr(merged["concurrentParts"]), NatOr(merged["waitTime"]),
                   NatOr(merged["retries"]), NatOr(merged["maxPartSize"]));
  }

  /** Reads a non-negative number option; anything else reads as 0. */
  function NatOr(v: OptionValue): nat
  {
    if v.Num? && v.n >= 0 then v.n else 0
  }
}
