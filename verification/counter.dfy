/**
 * The named counters the project service draws identifiers and credit
 * blocks from. The counter service itself is not part of this model; this
 * module states the behaviour its callers rely on.
 */
module Counter {
  import opened Decimal

  /** The counters the project service uses. */
  datatype CounterType = Project | Itmo

  /** The current value of every counter; a counter never written reads 0. */
  datatype Counters = Counters(project: nat, itmo: nat)

  /** `getCount(type)`: the counter's current value. */
  function GetCount(c: Counters, t: CounterType): nat {
    match t
    case Project => c.project
    case Itmo => c.itmo
  }

  /**
   * `incrementCount(type, padding, increment)`: advances the counter by `increment` and
   * returns its NEW value in decimal, zero-padded to `padding` digits.
   * The other counter is untouched.
   */
  function IncrementCount(c: Counters, t: CounterType, padding: nat, increment: nat): (r: (Counters, string))
    ensures GetCount(r.0, t) == GetCount(c, t) + increment
    ensures forall u :: u != t ==> GetCount(r.0, u) == GetCount(c, u)
    ensures |r.1| >= padding && AllDigits(r.1)
    ensures ParseDigits(r.1) == GetCount(c, t) + increment
  {
    var next := GetCount(c, t) + increment;
    var c' := match t
      case Project => c.(project := next)
      case Itmo => c.(itmo := next);
    PaddedDecimalRoundTrip(next, padding);
    (c', PadZeros(ToDecimal(next), padding))
  }
}
