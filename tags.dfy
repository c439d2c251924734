/**
 * A model of the part of Micrometer's tagging API that the route-policy naming
 * strategy relies on: a `Tag` is a key/value pair, `Tags.of(...)` turns a list
 * of tags into a tag set, and a `Meter.Id` is a meter name together with its
 * tag set. A tag set is a finite map from key to value; the library's own
 * ordering of tags is not modelled.
 */
module MicrometerTags {
  import opened Wrappers

  datatype Tag = Tag(key: string, value: string)

  /** The keys that occur in a list of tags. */
  function KeysOf(tags: seq<Tag>): (keys: set<string>)
  {
    set i | 0 <= i < |tags| :: tags[i].key
  }

  /** No two tags of the list share a key. */
  predicate DistinctKeys(tags: seq<Tag>)
  {
    forall i, j :: 0 <= i < j < |tags| ==> tags[i].key != tags[j].key
  }

  /** The tag at index `i` is the last one in the list with its key. */
  predicate LastOfKey(tags: seq<Tag>, i: nat)
    requires i < |tags|
  {
    forall j :: i < j < |tags| ==> tags[j].key != tags[i].key
  }


  lemma KeysOfSnoc(init: seq<Tag>, last: Tag)
    ensures KeysOf(init + [last]) == KeysOf(init) + {last.key}
  {
    var tags := init + [last];
    forall k | k in KeysOf(tags) ensures k in KeysOf(init) + {last.key} {
      var i :| 0 <= i < |tags| && tags[i].key == k;
      if i < |init| { assert init[i] == tags[i]; }
    }
    forall k | k in KeysOf(init) ensures k in KeysOf(tags) {
      var i :| 0 <= i < |init| && init[i].key == k;
      assert tags[i] == init[i];
    }
    assert tags[|init|] == last;
  }

  lemma DistinctKeysSnoc(init: seq<Tag>, last: Tag)
    ensures DistinctKeys(init + [last]) <==> DistinctKeys(init) && last.key !in KeysOf(init)
  {
    var tags := init + [last];
    if DistinctKeys(tags) {
      forall i, j | 0 <= i < j < |init| ensures init[i].key != init[j].key {
        assert init[i] == tags[i] && init[j] == tags[j];
      }
      forall i | 0 <= i < |init| ensures init[i].key != last.key {
        assert tags[i] == init[i] && tags[|init|] == last;
      }
    }
    if DistinctKeys(init) && last.key !in KeysOf(init) {
      forall i, j | 0 <= i < j < |tags| ensures tags[i].key != tags[j].key {
        assert tags[i] == init[i];
        if j < |init| { assert tags[j] == init[j]; }
      }
    }
  }

  /**
   * `Tags.of(k1, v1, k2, v2, ...)`: the tag set holding exactly the keys of the
   * list, one entry per distinct key; when a key is repeated, the later tag
   * replaces the earlier one (see TagsOfLastWins).
   */
  function TagsOf(tags: seq<Tag>): (m: map<string, string>)
    ensures m.Keys == KeysOf(tags)
    ensures |m| <= |tags|
    ensures DistinctKeys(tags) ==> |m| == |tags|
  {
    if tags == [] then map[]
    else
      var init, last := tags[..|tags| - 1], tags[|tags| - 1];
      assert tags == init + [last];
      KeysOfSnoc(init, last);
      DistinctKeysSnoc(init, last);
      TagsOf(init)[last.key := last.value]
  }

  /** Every key is mapped to the value of the last tag that carries it. */
  lemma {:induction false} TagsOfLastWins(tags: seq<Tag>, i: nat)
    requires i < |tags| && LastOfKey(tags, i)
    ensures tags[i].key in TagsOf(tags) && TagsOf(tags)[tags[i].key] == tags[i].value
  {
    var init, last := tags[..|tags| - 1], tags[|tags| - 1];
    if i < |init| {
      assert init[i] == tags[i];
      assert LastOfKey(init, i);
      TagsOfLastWins(init, i);
    }
  }

  /** Appending a tag updates the tag set under that tag's key. */
  lemma TagsOfSnoc(init: seq<Tag>, last: Tag)
    ensures TagsOf(init + [last]) == TagsOf(init)[last.key := last.value]
  {
    assert (init + [last])[..|init|] == init;
  }

  /** The tag set of a three-tag list, written out entry by entry. */
  lemma TagsOfThree(t1: Tag, t2: Tag, t3: Tag)
    ensures TagsOf([t1, t2, t3]) == map[t1.key := t1.value][t2.key := t2.value][t3.key := t3.value]
  {
    TagsOfSnoc([], t1);
    TagsOfSnoc([t1], t2);
    TagsOfSnoc([t1, t2], t3);
    assert [t1] == [] + [t1];
    assert [t1, t2] == [t1] + [t2];
    assert [t1, t2, t3] == [t1, t2] + [t3];
  }

  /** The tag set of a four-tag list, written out entry by entry. */
  lemma TagsOfFour(t1: Tag, t2: Tag, t3: Tag, t4: Tag)
    ensures TagsOf([t1, t2, t3, t4]) == TagsOf([t1, t2, t3])[t4.key := t4.value]
  {
    TagsOfSnoc([t1, t2, t3], t4);
    assert [t1, t2, t3, t4] == [t1, t2, t3] + [t4];
  }

  /** A meter identity: the meter's name and its tag set. */
  datatype MeterId = MeterId(name: string, tags: map<string, string>)
  {
    /** `Meter.Id.getTag(key)`: the value under `key`, or nothing (Java's null). */
    function GetTag(key: string): (v: Option<string>)
      ensures v.Some? <==> key in tags
      ensures v.Some? ==> tags[key] == v.value
    {
      if key in tags then Some(tags[key]) else None
    }
  }
}
