/// backend/addable_values_dict_patch.py: `AddableValuesDict`, a dict whose
/// `+` merges into a new dict (the right side wins) and whose attributes are
/// its items.
module AddableDict {
  import opened Py
  import opened Values

  /** What `self.name` reads: an item of the dict, or an attribute of the
      class itself (a dict method such as `items`, or a special name). */
  datatype Attribute = Item(value: Value) | ClassAttribute(name: string)

  /** The names normal lookup finds on an `AddableValuesDict` instance, as
      `dir()` lists them on Python 3.11: the dict methods, the special names
      of `dict` and `object`, the three methods the class defines, and the
      `__dict__`, `__module__` and `__weakref__` a subclass gains. */
  const ClassAttributes: set<string> := {
    "clear", "copy", "fromkeys", "get", "items", "keys", "pop", "popitem",
    "setdefault", "update", "values",
    "__add__", "__getattr__", "__setattr__",
    "__dict__", "__module__", "__weakref__",
    "__class__", "__class_getitem__", "__contains__", "__delattr__",
    "__delitem__", "__dir__", "__doc__", "__eq__", "__format__", "__ge__",
    "__getattribute__", "__getitem__", "__getstate__", "__gt__", "__hash__",
    "__init__", "__init_subclass__", "__ior__", "__iter__", "__le__",
    "__len__", "__lt__", "__ne__", "__new__", "__or__", "__reduce__",
    "__reduce_ex__", "__repr__", "__reversed__", "__ror__", "__setitem__",
    "__sizeof__", "__str__", "__subclasshook__"
  }

  class AddableValuesDict {
    var items: Dict

    constructor(items: Dict)
      ensures this.items == items
    {
      this.items := items;
    }

    /** `self + other`: a new dict with this one's items updated by `other`'s;
        both operands are left as they were. */
    method Add(other: AddableValuesDict) returns (r: AddableValuesDict)
      ensures fresh(r)
      ensures r.items == Merged(items, other.items)
    {
      r := new AddableValuesDict(Merged(items, other.items));
    }

    /** `self.name`. Normal attribute lookup runs first and finds the
        attributes of the class, so `__getattr__` sees only the other names:
        for those, the item of that key, and for a missing key an
        AttributeError naming it. */
    function GetAttr(name: string): (r: Result<Attribute>)
      reads this
      ensures name in ClassAttributes ==> r == Ok(ClassAttribute(name))
      ensures name !in ClassAttributes ==> (r.Ok? <==> name in items)
      ensures name !in ClassAttributes && name in items ==> r == Ok(Item(items[name]))
      ensures name !in ClassAttributes && name !in items ==> r == Err(AttributeError(name))
    {
      if name in ClassAttributes then Ok(ClassAttribute(name))
      else if name in items then Ok(Item(items[name]))
      else Err(AttributeError(name))
    }

    /** `self.name = value`: stores the item under that key, whatever the
        name (`__setattr__` is overridden for every name). */
    method SetAttr(name: string, value: Value)
      modifies this
      ensures items == old(items)[name := value]
    {
      items := items[name := value];
    }
  }

  /** `x + {}` is `x` and `{} + y` is `y`. */
  lemma MergeIdentity(x: Dict)
    ensures Merged(x, map[]) == x
    ensures Merged(map[], x) == x
  {
  }

  /** `(x + y) + z == x + (y + z)`: merging is associative, so a chain of
      partial updates can be applied one at a time. */
  lemma MergeAssociative(x: Dict, y: Dict, z: Dict)
    ensures Merged(Merged(x, y), z) == Merged(x, Merged(y, z))
  {
  }

  /** Merging the same update twice is merging it once. */
  lemma MergeIdempotent(x: Dict, y: Dict)
    ensures Merged(Merged(x, y), y) == Merged(x, y)
  {
  }
}
