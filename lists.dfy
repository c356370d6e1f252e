/**
 * The list-likeness test used by the renderers (`_is_list_like`, after pandas).
 * Python objects are modelled by the few facts the test looks at.
 */
module Lists {
  import opened Wrappers

  /** The kinds of Python object that the test tells apart. */
  datatype PyObject =
    | List
    | Tuple
    | Dict
    | Set
    | FrozenSet
    | Str
    | Bytes
    | Int
    | Float
    | NoneObject
    | Datetime
      /** A class object; `definesIter` says whether the class has an `__iter__` attribute. */
    | TypeObject(definesIter: bool)
      /** A NumPy array (or duck array) with `ndim` dimensions; arrays always have `__iter__`. */
    | NdArray(ndim: nat)
      /** Any other instance, described by the attributes the test inspects. */
    | Other(hasIter: bool, ndimAttr: Option<nat>, isAbcSet: bool)

  /** `getattr(obj, "__iter__", None) is not None` */
  predicate HasIter(o: PyObject) {
    match o
    case List | Tuple | Dict | Set | FrozenSet | Str | Bytes => true
    case Int | Float | NoneObject | Datetime => false
    case TypeObject(definesIter) => definesIter
    case NdArray(_) => true
    case Other(hasIter, _, _) => hasIter
  }

  /** The value of `obj.ndim` when the object has that attribute. */
  function Ndim(o: PyObject): Option<nat> {
    match o
    case NdArray(n) => Some(n)
    case Other(_, n, _) => n
    case _ => None
  }

  /** `isinstance(obj, abc.Set)` */
  predicate IsAbcSet(o: PyObject) {
    match o
    case Set | FrozenSet => true
    case Other(_, _, s) => s
    case _ => false
  }

  /**
   * `_is_list_like(obj, allow_sets)`: lists at once; otherwise iterable objects that are
   * not classes, not strings or bytes, not zero-dimensional arrays, and not sets when
   * sets are disallowed.
   */
  function IsListLike(o: PyObject, allowSets: bool := true): (r: bool)
    ensures o.List? ==> r
    ensures r ==> HasIter(o)
    ensures o.Str? || o.Bytes? ==> !r
    ensures o.TypeObject? ==> !r
    ensures Ndim(o) == Some(0) ==> !r
    ensures o.Set? || o.FrozenSet? ==> (r <==> allowSets)
    ensures o.Tuple? || o.Dict? ==> r
    ensures o.NdArray? ==> (r <==> o.ndim != 0)
  {
    if o.List? then true
    else
      && HasIter(o)
      && !o.TypeObject?
      && !(o.Str? || o.Bytes?)
      && !(Ndim(o).Some? && Ndim(o).value == 0)
      && !(!allowSets && IsAbcSet(o))
  }

  /** The examples of the docstring. */
  lemma DocstringExamples()
    ensures IsListLike(List) && IsListLike(Set)
    ensures !IsListLike(Datetime) && !IsListLike(Str) && !IsListLike(Int)
    ensures IsListLike(NdArray(1)) && !IsListLike(NdArray(0))
    ensures !IsListLike(Set, false)
  {
  }
}
