/**
 * The locked object of colour constants: its attributes are set once by the
 * constructor, after which every attribute assignment is refused.
 */
module Constants {
  import opened Common

  /** An attribute value: a number, or the boolean of the lock. */
  datatype Value = Num(x: real) | Flag(b: bool)

  /** Python truthiness of an attribute value. */
  predicate Truthy(v: Value)
  {
    match v
    case Num(x) => x != 0.0
    case Flag(b) => b
  }

  /** Whether an attribute name is protected, that is starts with an underscore. */
  predicate Protected(name: string)
  {
    |name| > 0 && name[0] == '_'
  }

  /** The entries of an instance dictionary, in insertion order, that are not protected. */
  function Public(keys: seq<string>, attrs: map<string, Value>): (r: seq<(string, Value)>)
    requires forall k :: k in keys ==> k in attrs
    ensures forall i :: 0 <= i < |r| ==> !Protected(r[i].0) && r[i].0 in keys && r[i].1 == attrs[r[i].0]
    ensures |r| <= |keys|
  {
    if keys == [] then []
    else
      var rest := Public(keys[1..], attrs);
      assert forall k :: k in keys[1..] ==> k in keys;
      if Protected(keys[0]) then rest else [(keys[0], attrs[keys[0]])] + rest
  }

  /** Every unprotected name of the dictionary has an entry in `Public`. */
  lemma {:induction false} PublicComplete(keys: seq<string>, attrs: map<string, Value>, k: string)
    requires forall k :: k in keys ==> k in attrs
    requires k in keys && !Protected(k)
    ensures exists i :: 0 <= i < |Public(keys, attrs)| && Public(keys, attrs)[i].0 == k
  {
    assert forall k :: k in keys[1..] ==> k in keys;
    var r := Public(keys, attrs);
    if keys[0] == k {
      assert r[0].0 == k;
    } else {
      assert k in keys[1..];
      PublicComplete(keys[1..], attrs, k);
      var rest := Public(keys[1..], attrs);
      var i :| 0 <= i < |rest| && rest[i].0 == k;
      if Protected(keys[0]) {
        assert r[i].0 == k;
      } else {
        assert r[i + 1].0 == k;
      }
    }
  }

  class Constants {
    /** The instance dictionary, as names in insertion order and their values. */
    var keys: seq<string>
    var attrs: map<string, Value>

    /** The dictionary is well formed: each name once, and each listed name has a value. */
    ghost predicate Valid()
      reads this
    {
      (forall i, j :: 0 <= i < j < |keys| ==> keys[i] != keys[j])
      && (forall k :: k in attrs <==> k in keys)
    }

    /**
     * The `lock` property: the value stored under `_lock`, or the class
     * default false before anything is stored there.
     */
    predicate Locked()
      reads this
    {
      "_lock" in attrs && Truthy(attrs["_lock"])
    }

    /**
     * `Constants()`: NC = 3, TF = 1/2, CA = NC and CF = (NC^2 - 1)/(2 NC),
     * each set while the object is still unlocked, then the lock.
     */
    constructor ()
      ensures Valid() && Locked()
      ensures keys == ["NC", "TF", "CA", "CF", "_lock"]
      ensures attrs == map["NC" := Num(3.0), "TF" := Num(0.5), "CA" := Num(3.0),
                           "CF" := Num((3.0 * 3.0 - 1.0) / (2.0 * 3.0)), "_lock" := Flag(true)]
    {
      keys := ["NC", "TF", "CA", "CF", "_lock"];
      attrs := map["NC" := Num(3.0), "TF" := Num(0.5), "CA" := Num(3.0),
                   "CF" := Num((3.0 * 3.0 - 1.0) / (2.0 * 3.0)), "_lock" := Flag(true)];
    }

    /** The lock setter, which writes `_lock` straight into the dictionary. */
    method SetLock(v: Value)
      requires Valid()
      modifies this
      ensures Valid() && attrs == old(attrs)["_lock" := v]
      ensures keys == if "_lock" in old(keys) then old(keys) else old(keys) + ["_lock"]
      ensures Locked() <==> Truthy(v)
    {
      if "_lock" !in keys {
        keys := keys + ["_lock"];
      }
      attrs := attrs["_lock" := v];
    }

    /**
     * `__setattr__`: refused with an AttributeError once locked, leaving the
     * object unchanged; otherwise `lock` goes to the lock setter and any
     * other name is stored.
     */
    method SetAttr(name: string, v: Value) returns (r: Result<()>)
      requires Valid()
      modifies this
      ensures Valid()
      ensures old(Locked()) ==> r == Err(AttributeError) && keys == old(keys) && attrs == old(attrs)
      ensures !old(Locked()) ==> r == Ok(())
      ensures !old(Locked()) && name == "lock" ==> attrs == old(attrs)["_lock" := v]
      ensures !old(Locked()) && name != "lock" ==> attrs == old(attrs)[name := v]
    {
      if Locked() {
        return Err(AttributeError);
      }
      if name == "lock" {
        SetLock(v);
      } else {
        if name !in keys {
          keys := keys + [name];
        }
        attrs := attrs[name := v];
      }
      r := Ok(());
    }

    /** `dict()`: the attributes whose names do not start with an underscore, in order. */
    function Dict(): (r: seq<(string, Value)>)
      reads this
      requires Valid()
      ensures forall i :: 0 <= i < |r| ==> !Protected(r[i].0) && r[i].0 in attrs && r[i].1 == attrs[r[i].0]
      ensures forall k :: k in attrs && !Protected(k) ==> exists i :: 0 <= i < |r| && r[i].0 == k
    {
      forall k | k in attrs && !Protected(k)
        ensures exists i :: 0 <= i < |Public(keys, attrs)| && Public(keys, attrs)[i].0 == k
      {
        PublicComplete(keys, attrs, k);
      }
      Public(keys, attrs)
    }
  }

  /** A fresh object exposes exactly NC = 3, TF = 1/2, CA = 3 and CF = 4/3, in that order. */
  lemma FreshDict(keys: seq<string>, attrs: map<string, Value>)
    requires keys == ["NC", "TF", "CA", "CF", "_lock"]
    requires attrs == map["NC" := Num(3.0), "TF" := Num(0.5), "CA" := Num(3.0),
                          "CF" := Num((3.0 * 3.0 - 1.0) / (2.0 * 3.0)), "_lock" := Flag(true)]
    ensures Public(keys, attrs) == [("NC", Num(3.0)), ("TF", Num(0.5)), ("CA", Num(3.0)), ("CF", Num(4.0 / 3.0))]
  {
    var k4 := ["_lock"];
    assert Protected("_lock") && k4[1..] == [];
    assert Public(k4, attrs) == [];
    var k3 := ["CF"] + k4;
    assert !Protected("CF") && k3[1..] == k4;
    assert Public(k3, attrs) == [("CF", Num(4.0 / 3.0))];
    var k2 := ["CA"] + k3;
    assert !Protected("CA") && k2[1..] == k3;
    assert Public(k2, attrs) == [("CA", Num(3.0)), ("CF", Num(4.0 / 3.0))];
    var k1 := ["TF"] + k2;
    assert !Protected("TF") && k1[1..] == k2;
    assert Public(k1, attrs) == [("TF", Num(0.5)), ("CA", Num(3.0)), ("CF", Num(4.0 / 3.0))];
    assert keys == ["NC"] + k1 && keys[1..] == k1;
    assert !Protected("NC");
  }
}
