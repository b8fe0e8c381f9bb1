/** Option and Result, used for the reads that can fail, and reading a sequence item by item. */
module Wrappers {

  datatype Option<+T> = None | Some(value: T)

  datatype Result<+R, +E> = Ok(value: R) | Err(error: E)

  /** Reads every item with `read`, in order: all the results, or the index of the first item that does not read. */
  function ReadAll<T, U>(xs: seq<T>, read: T -> Option<U>): (r: Result<seq<U>, nat>)
    ensures r.Ok? ==> |r.value| == |xs| && forall i :: 0 <= i < |xs| ==> read(xs[i]) == Some(r.value[i])
    ensures r.Err? ==> r.error < |xs| && read(xs[r.error]).None?
    ensures r.Err? ==> forall j :: 0 <= j < r.error ==> read(xs[j]).Some?
  {
    if xs == [] then Ok([])
    else match read(xs[0])
      case None => Err(0)
      case Some(y) =>
        match ReadAll(xs[1..], read)
        case Err(i) => Err(i + 1)
        case Ok(ys) => Ok([y] + ys)
  }

  /** Reading one more item that reads gives one more result at the end. */
  lemma {:induction false} ReadAllAppend<T, U>(xs: seq<T>, x: T, read: T -> Option<U>, ys: seq<U>, y: U)
    requires ReadAll(xs, read) == Ok(ys) && read(x) == Some(y)
    ensures ReadAll(xs + [x], read) == Ok(ys + [y])
  {
    var longer := xs + [x];
    if xs == [] {
      assert longer[0] == x && longer[1..] == [];
      assert ReadAll(longer[1..], read) == Ok([]);
      assert ys + [y] == [y] + [];
    } else {
      assert read(xs[0]) == Some(ys[0]);
      assert ReadAll(xs[1..], read) == Ok(ys[1..]);
      ReadAllAppend(xs[1..], x, read, ys[1..], y);
      assert longer[0] == xs[0] && longer[1..] == xs[1..] + [x];
      assert [ys[0]] + (ys[1..] + [y]) == ys + [y];
    }
  }
}
