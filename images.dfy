/** Image selection: the operating-system table, name normalisation, and the choice of
    the most recently published candidate. */
module Images {
  import opened Wrappers
  import opened Text

  /** One entry of a `describe_images` answer. */
  datatype ImageCandidate = ImageCandidate(imageId: string, creationDate: string)

  /** The provider-side image search: owning account and name glob. */
  datatype ImageQuery = ImageQuery(owner: string, namePattern: string)

  /** `system.lower().replace(" ", "")`: the lower-cased input with its blanks removed
      (RemoveSpacesAppend and RemoveSpacesChar fix the order of what is kept); the
      result has no blank and no upper-case letter, and every other character of the
      input survives, lower-cased. */
  function NormaliseSystem(system: string): (r: string)
    ensures r == RemoveSpaces(ToLower(system))
    ensures ' ' !in r
    ensures forall i :: 0 <= i < |r| ==> !('A' <= r[i] <= 'Z')
    ensures forall c :: c != ' ' ==> multiset(r)[c] == multiset(ToLower(system))[c]
  {
    var r := RemoveSpaces(ToLower(system));
    assert forall i :: 0 <= i < |r| ==> r[i] in r;
    r
  }

  /** The two-entry owner and name-pattern table, keyed by the normalised system name. */
  function QueryFor(system: string): (r: Option<ImageQuery>)
    ensures r.Some? <==> system == "amazonlinux" || system == "ubuntu"
  {
    if system == "amazonlinux" then Some(ImageQuery("137112412989", "amzn2-ami-hvm-*-x86_64-gp2"))
    else if system == "ubuntu" then Some(ImageQuery("099720109477", "ubuntu/images/hvm-ssd/ubuntu-jammy-22.04-amd64-server-*"))
    else None
  }

  /** Python's `a < b` on strings: code points compared left to right, a proper prefix
      first. Creation dates are ISO-8601 text, so this is also their time order. */
  predicate Before(a: string, b: string) {
    if a == [] then b != []
    else if b == [] then false
    else if a[0] != b[0] then a[0] < b[0]
    else Before(a[1..], b[1..])
  }

  lemma {:induction false} BeforeIrreflexive(a: string)
    ensures !Before(a, a)
  {
    if a != [] { BeforeIrreflexive(a[1..]); }
  }

  lemma {:induction false} BeforeTransitive(a: string, b: string, c: string)
    requires Before(a, b) && Before(b, c)
    ensures Before(a, c)
  {
    if a != [] && b != [] && c != [] && a[0] == b[0] && b[0] == c[0] {
      BeforeTransitive(a[1..], b[1..], c[1..]);
    }
  }

  /** Two strings that agree up to position `i` and differ there are ordered by that
      position. */
  lemma {:induction false} BeforeAt(a: string, b: string, i: nat)
    requires i < |a| && i < |b| && a[..i] == b[..i] && a[i] < b[i]
    ensures Before(a, b)
  {
    if i > 0 {
      assert a[0] == a[..i][0] == b[..i][0] == b[0];
      assert a[1..][..i - 1] == a[1..i] == b[1..i] == b[1..][..i - 1];
      BeforeAt(a[1..], b[1..], i - 1);
    }
  }

  lemma {:induction false} BeforeTotal(a: string, b: string)
    ensures a == b || Before(a, b) || Before(b, a)
  {
    if a != [] && b != [] && a[0] == b[0] {
      BeforeTotal(a[1..], b[1..]);
      if a[1..] == b[1..] {
        assert a == [a[0]] + a[1..] && b == [b[0]] + b[1..];
      }
    }
  }

  lemma BeforeAsymmetric(a: string, b: string)
    requires Before(a, b)
    ensures !Before(b, a)
  {
    if Before(b, a) {
      BeforeTransitive(a, b, a);
      BeforeIrreflexive(a);
    }
  }

  /** `k` is where `sorted(c, key=CreationDate, reverse=True)[0]` comes from: no candidate
      is newer, and every candidate before it is strictly older (the sort is stable, so a
      tie goes to the first in input order). */
  predicate IsLatest(c: seq<ImageCandidate>, k: int) {
    && 0 <= k < |c|
    && (forall j :: 0 <= j < |c| ==> !Before(c[k].creationDate, c[j].creationDate))
    && (forall j :: 0 <= j < k ==> Before(c[j].creationDate, c[k].creationDate))
  }

  /** The index of the newest candidate. */
  function Latest(c: seq<ImageCandidate>): (k: nat)
    requires c != []
    ensures IsLatest(c, k)
  {
    if |c| == 1 then
      BeforeIrreflexive(c[0].creationDate);
      0
    else
      var init := c[..|c| - 1];
      var k := Latest(init);
      var last := |c| - 1;
      assert forall j :: 0 <= j < last ==> c[j] == init[j];
      if Before(c[k].creationDate, c[last].creationDate) then
        assert forall j :: 0 <= j < last ==> Before(c[j].creationDate, c[last].creationDate) by {
          forall j | 0 <= j < last
            ensures Before(c[j].creationDate, c[last].creationDate)
          {
            BeforeTotal(c[j].creationDate, c[k].creationDate);
            if Before(c[j].creationDate, c[k].creationDate) {
              BeforeTransitive(c[j].creationDate, c[k].creationDate, c[last].creationDate);
            }
          }
        }
        assert forall j :: 0 <= j < |c| ==> !Before(c[last].creationDate, c[j].creationDate) by {
          forall j | 0 <= j < |c|
            ensures !Before(c[last].creationDate, c[j].creationDate)
          {
            if j < last && Before(c[last].creationDate, c[j].creationDate) {
              BeforeTransitive(c[j].creationDate, c[last].creationDate, c[j].creationDate);
              BeforeIrreflexive(c[j].creationDate);
            }
            BeforeIrreflexive(c[last].creationDate);
          }
        }
        last
      else
        k
  }

  /** The choice is unique: there is exactly one latest candidate. */
  lemma LatestIsUnique(c: seq<ImageCandidate>, k1: int, k2: int)
    requires IsLatest(c, k1) && IsLatest(c, k2)
    ensures k1 == k2
  {
    assert !Before(c[k1].creationDate, c[k2].creationDate) && !Before(c[k2].creationDate, c[k1].creationDate);
  }

  /** A candidate strictly newer than every other one is the one chosen. */
  lemma StrictlyNewestWins(c: seq<ImageCandidate>, k: nat)
    requires k < |c|
    requires forall j :: 0 <= j < |c| && j != k ==> Before(c[j].creationDate, c[k].creationDate)
    ensures Latest(c) == k
  {
    forall j | 0 <= j < |c|
      ensures !Before(c[k].creationDate, c[j].creationDate)
    {
      if j == k {
        BeforeIrreflexive(c[k].creationDate);
      } else {
        BeforeAsymmetric(c[j].creationDate, c[k].creationDate);
      }
    }
    LatestIsUnique(c, Latest(c), k);
  }

  const UbuntuNewest := ImageCandidate("ami-b", "2023-06-15")
  const UbuntuOlder := ImageCandidate("ami-a", "2021-01-01")
  const UbuntuOld := ImageCandidate("ami-c", "2022-11-01")

  lemma ExampleDatesOrdered()
    ensures Before(UbuntuOlder.creationDate, UbuntuNewest.creationDate)
    ensures Before(UbuntuOld.creationDate, UbuntuNewest.creationDate)
  {
    var newest, older1, older2 := UbuntuNewest.creationDate, UbuntuOlder.creationDate, UbuntuOld.creationDate;
    assert older1[..3] == newest[..3] && older2[..3] == newest[..3];
    BeforeAt(older1, newest, 3);
    BeforeAt(older2, newest, 3);
  }

  /** A newer Ubuntu candidate wins wherever it sits among older ones, however many of
      them there are and in whatever order. */
  lemma UbuntuExample(c: seq<ImageCandidate>, k: nat)
    requires k < |c| && c[k] == UbuntuNewest
    requires forall j :: 0 <= j < |c| && j != k ==> c[j] == UbuntuOlder || c[j] == UbuntuOld
    ensures c[Latest(c)].imageId == "ami-b"
  {
    ExampleDatesOrdered();
    StrictlyNewestWins(c, k);
  }

  /** Two candidates with the same date: the first one is chosen. */
  lemma TieGoesToFirst(a: ImageCandidate, b: ImageCandidate)
    requires a.creationDate == b.creationDate
    ensures Latest([a, b]) == 0
  {
    BeforeIrreflexive(a.creationDate);
  }
}
