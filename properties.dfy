/**
 * Properties that relate several operations of the store to each other,
 * stated on the value-level `State` that the class `Hamba` is proved to follow.
 */
module HambaProperties {
  import opened Wrappers
  import opened Hamba

  /** A match with no match before it is the one `FirstIndex` finds. */
  lemma FirstIndexAt(s: seq<string>, v: string, i: int)
    requires 0 <= i < |s| && s[i] == v
    requires forall j :: 0 <= j < i ==> s[j] != v
    ensures FirstIndex(s, v) == i
  {
  }

  /** Appending an element leaves earlier first matches where they were. */
  lemma FirstIndexAppend(s: seq<string>, x: string, v: string)
    ensures FirstIndex(s + [x], v) == if v in s then FirstIndex(s, v) else if x == v then |s| else -1
  {
    var t := s + [x];
    if v in s {
      var i := FirstIndex(s, v);
      assert forall j :: 0 <= j <= i ==> t[j] == s[j];
      FirstIndexAt(t, v, i);
    } else if x == v {
      assert forall j :: 0 <= j < |s| ==> t[j] == s[j];
      FirstIndexAt(t, v, |s|);
    } else {
      assert v !in t;
    }
  }

  /** After `Add`, a new key is found with its value; every other lookup is as before, including the old key when it was already there. */
  lemma AddThenGetAsString(s: State, k: string, v: string, ro: bool, q: string)
    requires s.Valid()
    ensures s.Add(k, v, ro).GetAsString(q) == if q == k && k !in s.key then (v, None) else s.GetAsString(q)
  {
    FirstIndexAppend(s.key, k, q);
  }

  /** Deleting a key that was just added gives the store back as it was. */
  lemma AddThenDelete(s: State, k: string, v: string, ro: bool)
    requires s.Valid() && k !in s.key
    ensures s.Add(k, v, ro).Delete(k) == Outcome(s, None)
  {
  }

  /** Removing an element that is not `v` moves the first match of `v` down by one if it came later. */
  lemma FirstIndexDeleteOther(s: seq<string>, i: int, v: string)
    requires 0 <= i < |s| && s[i] != v
    ensures var f := FirstIndex(s, v);
            FirstIndex(DeleteElement(s, i), v) == if f == -1 then -1 else if f < i then f else f - 1
  {
    var t := DeleteElement(s, i);
    var f := FirstIndex(s, v);
    if f == -1 {
      forall j | 0 <= j < |t| ensures t[j] != v {
        if j >= i { assert t[j] == s[j + 1]; }
      }
    } else if f < i {
      FirstIndexAt(t, v, f);
    } else {
      assert t[f - 1] == s[f];
      FirstIndexAt(t, v, f - 1);
    }
  }

  /** Removing the first match of `v` leaves the next match, if any, as the first one. */
  lemma FirstIndexDeleteFirst(s: seq<string>, v: string)
    requires v in s
    ensures var i := FirstIndex(s, v);
            var rest := s[i + 1..];
            FirstIndex(DeleteElement(s, i), v) == if v in rest then i + FirstIndex(rest, v) else -1
  {
    var i := FirstIndex(s, v);
    var rest := s[i + 1..];
    var t := DeleteElement(s, i);
    assert forall j :: i <= j < |t| ==> t[j] == rest[j - i];
    if v in rest {
      FirstIndexAt(t, v, i + FirstIndex(rest, v));
    } else {
      forall j | 0 <= j < |t| ensures t[j] != v {
        if j >= i { assert t[j] == rest[j - i]; }
      }
    }
  }

  /** A lookup after a successful `Delete` is a lookup in the shortened slices. */
  lemma GetAsStringAfterDelete(s: State, k: string, q: string)
    requires s.Valid() && k in s.key
    ensures var i := FirstIndex(s.key, k);
            var keys := DeleteElement(s.key, i);
            var f := FirstIndex(keys, q);
            s.Delete(k).after.GetAsString(q) ==
              if f == -1 then ("", Some(IsNotExistKey)) else (DeleteElement(s.value, i)[f], None)
  {
    var i := FirstIndex(s.key, k);
    assert s.Delete(k).after.key == DeleteElement(s.key, i);
    assert s.Delete(k).after.value == DeleteElement(s.value, i);
  }

  /** Entries with other keys stay reachable, with their values, after a `Delete`. */
  lemma DeleteKeepsOtherKeys(s: State, k: string, q: string)
    requires s.Valid() && q != k
    ensures s.Delete(k).after.GetAsString(q) == s.GetAsString(q)
  {
    if k in s.key {
      var i := FirstIndex(s.key, k);
      var values := DeleteElement(s.value, i);
      GetAsStringAfterDelete(s, k, q);
      FirstIndexDeleteOther(s.key, i, q);
      var f := FirstIndex(s.key, q);
      if f == -1 {
      } else if f < i {
        assert values[f] == s.value[f];
      } else {
        assert values[f - 1] == s.value[f];
      }
    }
  }

  /** `Delete` removes only the first entry with key `k`; the next one, if any, becomes the one found. */
  lemma DeleteUncoversShadowed(s: State, k: string)
    requires s.Valid() && k in s.key
    ensures var i := FirstIndex(s.key, k);
            var rest := s.key[i + 1..];
            s.Delete(k).after.GetAsString(k) ==
              if k in rest then (s.value[i + 1 + FirstIndex(rest, k)], None) else ("", Some(IsNotExistKey))
  {
    var i := FirstIndex(s.key, k);
    var rest := s.key[i + 1..];
    GetAsStringAfterDelete(s, k, k);
    FirstIndexDeleteFirst(s.key, k);
    if k in rest {
      var r := FirstIndex(rest, k);
      assert DeleteElement(s.value, i)[i + r] == s.value[i + 1 + r];
    }
  }

  /** A successful `UpdateValue` is seen by the next lookup; a failed one changes nothing. */
  lemma UpdateValueThenGet(s: State, k: string, v: string)
    requires s.Valid()
    ensures var o := s.UpdateValue(k, v);
            o.after.GetAsString(k) == if o.err == None then (v, None) else s.GetAsString(k)
  {
  }

  /** Clearing the readonly flag always succeeds, and then the value can be updated. */
  lemma ReadonlyBypass(s: State, k: string, v: string)
    requires s.Valid() && k in s.key
    ensures s.UpdateReadonly(k, false).err == None
    ensures var o := s.UpdateReadonly(k, false).after.UpdateValue(k, v);
            o.err == None && o.after.GetAsString(k) == (v, None)
  {
  }

  /** Renaming to a fresh key moves the value to that key, and renaming back restores the store. */
  lemma UpdateKeyRoundTrip(s: State, k: string, newKey: string)
    requires s.Valid() && k in s.key && !s.readonly[FirstIndex(s.key, k)] && newKey !in s.key
    ensures var o := s.UpdateKey(k, newKey);
            && o.err == None
            && o.after.GetAsString(newKey) == s.GetAsString(k)
            && o.after.UpdateKey(newKey, k) == Outcome(s, None)
  {
  }

  /** Setting the readonly flag and then setting it back restores the store. */
  lemma UpdateReadonlyRoundTrip(s: State, k: string, b: bool)
    requires s.Valid() && k in s.key
    ensures s.UpdateReadonly(k, b).after.UpdateReadonly(k, s.readonly[FirstIndex(s.key, k)]) == Outcome(s, None)
  {
  }

  /** `UpdateAll` fails exactly when `UpdateValue` would, with the same error, for every key. */
  lemma UpdateAllErrorsAsUpdateValue(s: State, k: string, newKey: string, newValue: string, newReadonly: bool)
    requires s.Valid()
    ensures s.UpdateAll(k, newKey, newValue, newReadonly).err == s.UpdateValue(k, newValue).err
  {
  }

  /**
   * A successful `UpdateAll` equals updating the value, then the key, then the
   * flag under the new key, provided the new key does not occur before the
   * entry; otherwise the last step would find the earlier entry.
   */
  lemma UpdateAllInSteps(s: State, k: string, newKey: string, newValue: string, newReadonly: bool)
    requires s.Valid() && k in s.key && newKey !in s.key[..FirstIndex(s.key, k)]
    ensures var o1 := s.UpdateValue(k, newValue);
            var o2 := o1.after.UpdateKey(k, newKey);
            var o3 := o2.after.UpdateReadonly(newKey, newReadonly);
            o1.err == None ==> o2.err == None && s.UpdateAll(k, newKey, newValue, newReadonly) == o3
  {
  }

  /** Without that proviso the steps can differ: an earlier entry already named `newKey` gets the flag. */
  lemma UpdateAllStepsNeedFreshKey()
    ensures var s := State(["a", "b"], ["1", "2"], [false, false]);
            var o1 := s.UpdateValue("b", "9");
            var o3 := o1.after.UpdateKey("b", "a").after.UpdateReadonly("a", true);
            s.UpdateAll("b", "a", "9", true).after != o3.after
  {
    var s := State(["a", "b"], ["1", "2"], [false, false]);
    assert FirstIndex(s.key, "b") == 1;
    var t := State(["a", "a"], ["1", "9"], [false, false]);
    assert s.UpdateValue("b", "9").after.UpdateKey("b", "a").after == t;
    assert FirstIndex(t.key, "a") == 0;
    assert s.UpdateAll("b", "a", "9", true).after.readonly[0] == false;
  }

  /** Every typed getter is `GetAsString` followed by the parser, with its own sentinel for a missing key. */
  lemma GetIsLookupThenParse<T>(s: State, k: string, parse: string -> Option<T>, sentinel: T)
    requires s.Valid()
    ensures var (v, err) := s.GetAsString(k);
            s.Get(k, parse, sentinel) == if err == None then Parsed(parse, v) else Returned(sentinel, err)
  {
  }

  /** A value stored under a fresh key comes back from a typed getter exactly as the parser reads it. */
  lemma AddThenGet<T>(s: State, k: string, v: string, ro: bool, parse: string -> Option<T>, sentinel: T)
    requires s.Valid() && k !in s.key
    ensures s.Add(k, v, ro).Get(k, parse, sentinel) == Parsed(parse, v)
  {
  }

  /** The whitelist as written accepts the misspelling "unit8" and rejects Go's "uint8". */
  lemma CheckValidTypeRejectsUint8()
    ensures CheckValidType("unit8") == None
    ensures CheckValidType(GoName(Uint8Type)) == Some(IsNotValidType)
  {
    assert VALID_TYPES[7] == "unit8";
    forall j | 0 <= j < |VALID_TYPES| ensures VALID_TYPES[j] != "uint8" {
      assert |VALID_TYPES[j]| != 5 || VALID_TYPES[j][1] != 'i';
    }
  }

  /** The correction changes one name only: on every other name both checks agree. */
  lemma {:induction false} CheckValidTypeCorrectionIsOneName(name: string)
    requires name != "unit8" && name != "uint8"
    ensures CheckValidType(name) == CheckValidTypeIntended(name)
  {
    assert VALID_TYPES == INTENDED_TYPES[7 := "unit8"];
    if name in VALID_TYPES {
      var i :| 0 <= i < |VALID_TYPES| && VALID_TYPES[i] == name;
      assert INTENDED_TYPES[i] == name;
    }
    if name in INTENDED_TYPES {
      var i :| 0 <= i < |INTENDED_TYPES| && INTENDED_TYPES[i] == name;
      assert VALID_TYPES[i] == name;
    }
  }

  /** A client of the class: a readonly entry refuses updates until its flag is cleared. */
  method ReadonlyWalkthrough()
  {
    var h := new Hamba.New();
    h.Add("x", "1", true);
    assert h.key == ["x"] && h.readonly == [true];
    var err := h.UpdateValue("x", "2");
    assert err == Some(ItIsReadonly);
    var v, e := h.GetAsString("x");
    assert v == "1" && e == None;
    err := h.UpdateReadonly("x", false);
    assert err == None && h.readonly == [false];
    err := h.UpdateValue("x", "2");
    assert err == None;
    v, e := h.GetAsString("x");
    assert v == "2";
  }

  /** A client of the class: with a duplicate key only the first entry is seen, and removing it uncovers the second. */
  method DuplicateKeyWalkthrough()
  {
    var h := new Hamba.New();
    h.Add("k", "1", false);
    h.Add("k", "2", false);
    assert h.key == ["k", "k"] && h.value == ["1", "2"];
    var v, e := h.GetAsString("k");
    assert v == "1";
    var err := h.Remove("k");
    assert err == None && h.key == ["k"] && h.value == ["2"];
    v, e := h.GetAsString("k");
    assert v == "2" && e == None;
  }

  /** A client of the class: a typed read of a stored number, and the sentinel for a missing key. */
  method TypedReadWalkthrough(atoi: string -> Option<Int64>)
    requires atoi("42") == Some(42)
  {
    var h := new Hamba.New();
    h.Add("n", "42", false);
    assert h.key == ["n"] && h.value == ["42"];
    var n := h.GetAsInt("n", atoi);
    assert n == Returned(42, None);
    n := h.GetAsInt("m", atoi);
    assert n == Returned(-1, Some(IsNotExistKey));
  }
}
