/** An optional value. It stands for a TypeScript `T | null`, for an
    optional property `x?: T`, and for one key of a `Partial<T>`. */
module Options {

  datatype Option<+T> = None | Some(value: T) {

    /** The value under `Some`, or `default` under `None`: the effect of
        spreading one optional key over a record that already has it. */
    function GetOr(default: T): T
    {
      match this
      case Some(v) => v
      case None => default
    }

    /** Right-biased union of two optional keys: `{...a, ...b}` for one key. */
    function Or(later: Option<T>): Option<T>
    {
      if later.Some? then later else this
    }
  }

  /** `None` is the identity of `Or` on both sides and `Or` is associative,
      so spreading optional keys one after another may be grouped freely;
      spreading a key and then a present key gives the later one. */
  lemma OrLaws<T>(a: Option<T>, b: Option<T>, c: Option<T>, d: T)
    ensures None.Or(a) == a && a.Or(None) == a
    ensures a.Or(b).Or(c) == a.Or(b.Or(c))
    ensures b.Some? ==> a.Or(b).GetOr(d) == b.value
    ensures b.None? ==> a.Or(b).GetOr(d) == a.GetOr(d)
  {
  }
}
