/** The tag convention that marks a resource as created by the controller for its
    single operator, and the three ways the controller reads a tag set. */
module Ownership {
  import opened Wrappers

  /** One `{"Key": ..., "Value": ...}` entry of a provider tag set. */
  datatype Tag = Tag(key: string, value: string)

  const CreatedByKey: string := "CreatedBy"
  const ToolName: string := "platform-cli"
  const OwnerKey: string := "Owner"
  const Operator: string := "itai"
  const NameKey: string := "Name"

  /** Tag `i` is the last one in the set carrying its key. */
  predicate IsLastOfKey(tags: seq<Tag>, i: int)
    requires 0 <= i < |tags|
  {
    forall j :: i < j < |tags| ==> tags[j].key != tags[i].key
  }

  /** `{tag["Key"]: tag["Value"] for tag in tags}`: a later entry overwrites an earlier
      one with the same key (see TagDictLastWins). Every value it holds was stored
      under its key by some entry. */
  function TagDict(tags: seq<Tag>): (d: map<string, string>)
    ensures forall k :: k in d ==> Tag(k, d[k]) in tags
  {
    if tags == [] then map[]
    else
      var init := tags[..|tags| - 1];
      var last := tags[|tags| - 1];
      assert forall t :: t in init ==> t in tags;
      TagDict(init)[last.key := last.value]
  }

  /** The last entry with a key decides that key's value. */
  lemma {:induction false} TagDictLastWins(tags: seq<Tag>, i: int)
    requires 0 <= i < |tags| && IsLastOfKey(tags, i)
    ensures tags[i].key in TagDict(tags) && TagDict(tags)[tags[i].key] == tags[i].value
  {
    if i < |tags| - 1 {
      var init := tags[..|tags| - 1];
      assert IsLastOfKey(init, i);
      TagDictLastWins(init, i);
    }
  }

  /** Python's `d.get(k)`. */
  function Get(d: map<string, string>, k: string): Option<string> {
    if k in d then Some(d[k]) else None
  }

  /** The ownership test over the tag dictionary (both tags, the form of the upload
      guard, the bucket listing and the zone listing). */
  predicate IsOwned(tags: seq<Tag>): (owned: bool)
    ensures owned ==> MatchesOwnerFilter(tags) && CreatedByToolInDict(tags)
  {
    var d := TagDict(tags);
    Get(d, CreatedByKey) == Some(ToolName) && Get(d, OwnerKey) == Some(Operator)
  }

  /** The record-listing guard: only `CreatedBy`, read through the dictionary. */
  predicate CreatedByToolInDict(tags: seq<Tag>): (created: bool)
    ensures created ==> CreatedByToolAny(tags)
  {
    Get(TagDict(tags), CreatedByKey) == Some(ToolName)
  }

  /** Some entry carries exactly this key and value: the meaning of a provider-side
      `tag:<key>` filter, and of `any(tag["Key"] == k and tag["Value"] == v ...)`. */
  predicate HasTag(tags: seq<Tag>, key: string, value: string) {
    Tag(key, value) in tags
  }

  /** The record-change guard: only `CreatedBy`, searched with `any`. */
  predicate CreatedByToolAny(tags: seq<Tag>): (created: bool)
    ensures created <==> exists i :: 0 <= i < |tags| && tags[i].key == CreatedByKey && tags[i].value == ToolName
  {
    HasTag(tags, CreatedByKey, ToolName)
  }

  /** A provider-side filter on both ownership tags. */
  predicate MatchesOwnerFilter(tags: seq<Tag>) {
    HasTag(tags, CreatedByKey, ToolName) && HasTag(tags, OwnerKey, Operator)
  }

  /** No key occurs twice: what the provider enforces on every tag set it stores. */
  predicate UniqueKeys(tags: seq<Tag>) {
    forall i, j :: 0 <= i < j < |tags| ==> tags[i].key != tags[j].key
  }

  /** The two tags every create operation stamps on its resource. */
  function OwnershipTags(): (t: seq<Tag>)
    ensures IsOwned(t) && MatchesOwnerFilter(t) && UniqueKeys(t)
  {
    [Tag(CreatedByKey, ToolName), Tag(OwnerKey, Operator)]
  }

  /** The tags of a newly provisioned instance: ownership plus its `Name`. */
  function InstanceTags(name: string): (t: seq<Tag>)
    ensures IsOwned(t) && MatchesOwnerFilter(t) && UniqueKeys(t)
    ensures HasTag(t, NameKey, name)
  {
    assert TagDict(OwnershipTags() + [Tag(NameKey, name)]) == TagDict(OwnershipTags())[NameKey := name];
    OwnershipTags() + [Tag(NameKey, name)]
  }

  /** Whatever the dictionary says was stored under some entry, so the dictionary test
      implies the filter test: an owned tag set passes every provider-side owner filter
      and the record-change guard. */
  lemma OwnedMatchesFilter(tags: seq<Tag>)
    requires IsOwned(tags)
    ensures MatchesOwnerFilter(tags) && CreatedByToolAny(tags) && CreatedByToolInDict(tags)
  {
  }

  /** With unique keys (as the provider stores them) the dictionary test and the
      filter test agree. */
  lemma {:induction false} UniqueKeysDictAgrees(tags: seq<Tag>, key: string, value: string)
    requires UniqueKeys(tags)
    ensures HasTag(tags, key, value) <==> Get(TagDict(tags), key) == Some(value)
  {
    if HasTag(tags, key, value) {
      var i :| 0 <= i < |tags| && tags[i] == Tag(key, value);
      TagDictLastWins(tags, i);
    }
  }

  lemma OwnedIffFilterOnUniqueKeys(tags: seq<Tag>)
    requires UniqueKeys(tags)
    ensures IsOwned(tags) <==> MatchesOwnerFilter(tags)
  {
    UniqueKeysDictAgrees(tags, CreatedByKey, ToolName);
    UniqueKeysDictAgrees(tags, OwnerKey, Operator);
  }

  /** The record-change guard is strictly weaker than ownership: a zone tagged only
      `CreatedBy=platform-cli`, for any other operator, passes it. */
  lemma RecordGuardAdmitsForeignOwner()
    ensures var tags := [Tag(CreatedByKey, ToolName), Tag(OwnerKey, "someone-else")];
      CreatedByToolAny(tags) && CreatedByToolInDict(tags) && !IsOwned(tags)
  {
    var tags := [Tag(CreatedByKey, ToolName), Tag(OwnerKey, "someone-else")];
    TagDictLastWins(tags, 1);
  }

  /** With a repeated key the `any` search and the dictionary disagree: the dictionary
      keeps the last value, the search finds any. */
  lemma AnyAndDictDisagreeOnRepeatedKey()
    ensures var tags := [Tag(CreatedByKey, ToolName), Tag(CreatedByKey, "other")];
      CreatedByToolAny(tags) && !CreatedByToolInDict(tags)
  {
    var tags := [Tag(CreatedByKey, ToolName), Tag(CreatedByKey, "other")];
    TagDictLastWins(tags, 1);
  }

  /** The keys a tag set carries. */
  function Keys(tags: seq<Tag>): set<string> {
    set t | t in tags :: t.key
  }

  /** Route 53's `AddTags`: keys already present are replaced, new ones appended.
      Every added tag is in the result, every current tag whose key is not being
      added survives, and nothing else is there. */
  function AddTags(current: seq<Tag>, added: seq<Tag>): (r: seq<Tag>)
    ensures forall t :: t in added ==> t in r
    ensures forall t :: t in current && t.key !in Keys(added) ==> t in r
    ensures forall t :: t in r ==> t in added || (t in current && t.key !in Keys(added))
  {
    if current == [] then added
    else if current[0].key in Keys(added) then AddTags(current[1..], added)
    else [current[0]] + AddTags(current[1..], added)
  }

  /** The dictionary of a concatenation: the later part overrides the earlier one. */
  lemma {:induction false} TagDictAppend(a: seq<Tag>, b: seq<Tag>)
    ensures TagDict(a + b) == TagDict(a) + TagDict(b)
  {
    if b == [] {
      assert a + b == a;
    } else {
      var n := |b| - 1;
      var init, last := b[..n], b[n];
      assert (a + b)[..|a + b| - 1] == a + init;
      assert (a + b)[|a + b| - 1] == last;
      TagDictAppend(a, init);
      UpdateAfterUnion(TagDict(a), TagDict(init), last.key, last.value);
    }
  }

  lemma UpdateAfterUnion(m: map<string, string>, n: map<string, string>, k: string, v: string)
    ensures (m + n)[k := v] == m + n[k := v]
  {
  }

  /** The current entries whose keys are not being added, in their order. */
  function Untouched(current: seq<Tag>, added: seq<Tag>): seq<Tag> {
    if current == [] then []
    else if current[0].key in Keys(added) then Untouched(current[1..], added)
    else [current[0]] + Untouched(current[1..], added)
  }

  /** `AddTags` keeps the untouched entries in order and puts the added ones last. */
  lemma {:induction false} AddTagsShape(current: seq<Tag>, added: seq<Tag>)
    ensures AddTags(current, added) == Untouched(current, added) + added
  {
    if current != [] {
      AddTagsShape(current[1..], added);
      if current[0].key !in Keys(added) {
        assert AddTags(current, added) == [current[0]] + (Untouched(current[1..], added) + added);
      }
    }
  }

  /** Stamping the ownership tags onto any tag set makes it owned. */
  lemma StampingOwns(current: seq<Tag>)
    ensures IsOwned(AddTags(current, OwnershipTags()))
  {
    AddTagsShape(current, OwnershipTags());
    TagDictAppend(Untouched(current, OwnershipTags()), OwnershipTags());
  }

  /** `v` is what a front-to-back search for `key` that stops at the first hit yields,
      starting from "" when nothing is found. */
  predicate IsFirstValue(tags: seq<Tag>, key: string, v: string) {
    if exists i :: 0 <= i < |tags| && tags[i].key == key then
      exists i :: 0 <= i < |tags| && tags[i].key == key && tags[i].value == v
        && forall j :: 0 <= j < i ==> tags[j].key != key
    else v == ""
  }

  /** With unique keys the first hit is the only one. */
  lemma FirstValueOnUniqueKeys(tags: seq<Tag>, key: string, v: string, w: string)
    requires UniqueKeys(tags) && HasTag(tags, key, w) && IsFirstValue(tags, key, v)
    ensures v == w
  {
    var k :| 0 <= k < |tags| && tags[k] == Tag(key, w);
    var i :| 0 <= i < |tags| && tags[i].key == key && tags[i].value == v && forall j :: 0 <= j < i ==> tags[j].key != key;
    assert !(i < k) && !(k < i);
  }
}
