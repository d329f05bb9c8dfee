/** backend/models/Shop.js: the shop's counters and the pre-save hook that
    derives a unique public slug from the shop name. */
module Shops {
  import opened Common
  import opened Text
  import opened Slugs

  datatype ShopStats = ShopStats(totalOrders: int, totalRevenue: int, totalCustomers: int, totalProducts: int)

  /** The k-th candidate of the collision loop: each retry appends "-counter"
      to the previous candidate, so the k-th is base-1-2-…-k. */
  function Candidate(base: string, k: nat): (c: string)
    ensures |c| >= |base| + 2 * k
  {
    if k == 0 then base else Candidate(base, k - 1) + "-" + NatToString(k)
  }

  /** A slug is free for shop `id` when no shop holds it, or this shop does. */
  predicate Free(owners: map<string, Id>, id: Id, slug: string) {
    slug !in owners || owners[slug] == id
  }

  /** Later candidates are strictly longer, so no candidate is tried twice. */
  lemma {:induction false} CandidatesGrow(base: string, j: nat, k: nat)
    requires j < k
    ensures |Candidate(base, j)| < |Candidate(base, k)|
  {
    if j < k - 1 {
      CandidatesGrow(base, j, k - 1);
    }
  }

  /** The second retry is base-1-2, not base-2; from the second retry on the
      candidate is never base-k. */
  lemma AccumulatedSuffixes(base: string, k: nat)
    requires k >= 2
    ensures Candidate(base, 2) == base + "-1-2"
    ensures Candidate(base, k) != base + "-" + NatToString(k)
  {
    assert NatToString(1) == "1" && NatToString(2) == "2";
    assert Candidate(base, 1) == base + "-1";
    assert Candidate(base, 2) == base + "-1" + "-2";
    assert Candidate(base, k) == Candidate(base, k - 1) + "-" + NatToString(k);
  }

  /** When the base is made of slug characters, so is every candidate: the
      suffixes stay within the character class of the schema's `/^[a-z0-9-]+$/`. */
  lemma {:induction false} CandidateChars(base: string, k: nat)
    requires forall i :: 0 <= i < |base| ==> IsSlugChar(base[i])
    ensures forall i :: 0 <= i < |Candidate(base, k)| ==> IsSlugChar(Candidate(base, k)[i])
  {
    if k > 0 {
      CandidateChars(base, k - 1);
      var c, d := Candidate(base, k - 1), NatToString(k);
      assert forall i :: 0 <= i < |d| ==> IsSlugChar(d[i]);
      assert Candidate(base, k) == c + "-" + d;
    }
  }

  /** The taken slugs at least as long as `s`. */
  function LongTaken(owners: map<string, Id>, s: string): set<string>
  {
    set t | t in owners && |t| >= |s|
  }

  lemma LongTakenShrinks(owners: map<string, Id>, a: string, b: string)
    requires a in owners && |b| > |a|
    ensures LongTaken(owners, b) < LongTaken(owners, a)
  {
    assert a in LongTaken(owners, a) && a !in LongTaken(owners, b);
  }

  /** The slug the collision loop settles on when it starts at candidate k:
      the first candidate from k on that is free for shop `id`. */
  function FirstFreeFrom(owners: map<string, Id>, id: Id, base: string, k: nat): (s: string)
    ensures Free(owners, id, s)
    decreases LongTaken(owners, Candidate(base, k))
  {
    var c := Candidate(base, k);
    if Free(owners, id, c) then c
    else
      LongTakenShrinks(owners, c, Candidate(base, k + 1));
      FirstFreeFrom(owners, id, base, k + 1)
  }

  /** The loop settles on the first free candidate: when candidate n is free
      and all of k..n-1 are held by other shops, the result is candidate n. */
  lemma {:induction false} FirstFreeFromIsFirst(owners: map<string, Id>, id: Id, base: string, k: nat, n: nat)
    requires k <= n && Free(owners, id, Candidate(base, n))
    requires forall j: nat :: k <= j < n ==> !Free(owners, id, Candidate(base, j))
    ensures FirstFreeFrom(owners, id, base, k) == Candidate(base, n)
    decreases n - k
  {
    if k < n {
      FirstFreeFromIsFirst(owners, id, base, k + 1, n);
    }
  }

  /** Every candidate from k on that is shorter than the result was skipped
      because another shop holds it. */
  lemma {:induction false} FirstFreeFromSkipsTaken(owners: map<string, Id>, id: Id, base: string, k: nat, j: nat)
    requires k <= j && |Candidate(base, j)| < |FirstFreeFrom(owners, id, base, k)|
    ensures !Free(owners, id, Candidate(base, j))
    decreases LongTaken(owners, Candidate(base, k))
  {
    if k == j {
      assert FirstFreeFrom(owners, id, base, k) != Candidate(base, k);
    } else if Free(owners, id, Candidate(base, k)) {
      CandidatesGrow(base, k, j);
    } else {
      LongTakenShrinks(owners, Candidate(base, k), Candidate(base, k + 1));
      FirstFreeFromSkipsTaken(owners, id, base, k + 1, j);
    }
  }

  /** A base slug nobody else holds is kept as it is; a taken one never is. */
  lemma FreeBaseKept(owners: map<string, Id>, id: Id, base: string)
    ensures FirstFreeFrom(owners, id, base, 0) == base <==> Free(owners, id, base)
  {
  }

  /** The collision loop of the hook: from the base slug, keep appending
      "-counter" while another shop holds the slug. */
  method FreeSlug(owners: map<string, Id>, id: Id, base: string) returns (slug: string)
    ensures slug == FirstFreeFrom(owners, id, base, 0)
  {
    slug := base;
    var counter: nat := 1;
    while slug in owners && owners[slug] != id
      invariant slug == Candidate(base, counter - 1)
      invariant FirstFreeFrom(owners, id, base, counter - 1) == FirstFreeFrom(owners, id, base, 0)
      decreases LongTaken(owners, slug)
    {
      var next := slug + "-" + NatToString(counter);
      LongTakenShrinks(owners, slug, next);
      slug := next;
      counter := counter + 1;
    }
  }

  /** A loaded shop document; `publicSlug` "" stands for an unset slug and
      `nameModified` for `isModified('shopName')`. */
  class Shop {
    var id: Id
    var shopName: string
    var nameModified: bool
    var publicSlug: string
    var stats: ShopStats

    constructor Load(shopId: Id, name: string, modified: bool, slug: string, s: ShopStats)
      ensures id == shopId && shopName == name && nameModified == modified && publicSlug == slug && stats == s
    {
      id, shopName, nameModified, publicSlug, stats := shopId, name, modified, slug, s;
    }

    /** The pre-save hook, given the slugs other documents hold (`findOne({publicSlug})`). */
    method PreSave(owners: map<string, Id>)
      modifies this`publicSlug
      ensures !old(nameModified) && old(publicSlug) != "" ==> publicSlug == old(publicSlug)
      ensures old(nameModified) || old(publicSlug) == "" ==>
                publicSlug == FirstFreeFrom(owners, old(id), GenerateSlug(old(shopName)), 0)
    {
      if nameModified || publicSlug == "" {
        var base := GenerateSlug(shopName);
        var slug := FreeSlug(owners, id, base);
        publicSlug := slug;
      }
    }
  }
}
