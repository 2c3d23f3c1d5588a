/**
 * The rule-based fallback generator `generateDemoAnalysis`: four category
 * flags select entries of a fixed catalog, in catalog order; the list is cut
 * to at most five entries (never padded), and the summary reports the count
 * and the rounded mean match score.
 */
module Demo {
  import opened Js
  import opened Schema

  const Aave := Partner(
    "Aave", "DeFi Protocol",
    "Decentralized lending protocol with over $6B in total value locked across multiple blockchain networks.",
    "Strong alignment for DeFi integration opportunities. Their lending infrastructure could complement your project's financial mechanisms and provide liquidity solutions.",
    89, 85, 92, 90, "450K+ Discord", "$6.2B")

  const Chainlink := Partner(
    "Chainlink", "Infrastructure",
    "Decentralized oracle network providing real-world data to smart contracts across multiple blockchains.",
    "Essential infrastructure for reliable price feeds and external data integration. Their oracle services are critical for DeFi applications requiring accurate market data.",
    82, 78, 88, 80, "280K+ Twitter", "Secures $75B+")

  const OpenSea := Partner(
    "OpenSea", "NFT Platform",
    "Leading NFT marketplace enabling users to buy, sell, and discover unique digital items across multiple blockchains.",
    "Perfect partnership for NFT distribution and marketplace integration. Their established user base and infrastructure could accelerate your platform's adoption.",
    87, 90, 84, 88, "1.2M+ Discord", "$24B+ Volume")

  const Snapshot := Partner(
    "Snapshot", "DAO Tooling",
    "Decentralized voting platform used by major DAOs for governance decisions and community polling.",
    "Ideal for implementing robust governance mechanisms. Their proven voting infrastructure and DAO expertise align perfectly with your governance requirements.",
    91, 95, 86, 92, "80K+ Users", "Powers 15K+ DAOs")

  const Polygon := Partner(
    "Polygon", "Infrastructure",
    "Ethereum scaling solution providing faster and cheaper transactions for decentralized applications.",
    "Excellent technical fit for reducing transaction costs and improving user experience. Their ecosystem support and developer tools could accelerate your development timeline.",
    85, 82, 89, 84, "180K+ Discord", "$1.2B+ TVL")

  const Gitcoin := Partner(
    "Gitcoin", "Funding Platform",
    "Web3 funding platform connecting projects with contributors through grants and bounties for public goods.",
    "Strategic funding opportunity through their grants program. Their focus on public goods and Web3 innovation aligns with your project's mission and growth needs.",
    78, 85, 70, 82, "65K+ Twitter", "$50M+ Distributed")

  /** Every entry the generator can return, in the order it appends them. */
  const Catalog: seq<Partner> := [Aave, Chainlink, OpenSea, Snapshot, Polygon, Gitcoin]

  /** The most entries a demo result keeps. */
  const MaxPartners := 5

  /** The four category tests; each is exact membership of one literal string. */
  datatype Flags = Flags(defi: bool, nft: bool, dao: bool, social: bool)

  /** The four tests of `generateDemoAnalysis`; a category list with none of the four literals sets no flag. */
  function FlagsOf(categories: seq<string>): (f: Flags)
    ensures (f.defi || f.nft || f.dao || f.social) <==>
      exists c :: c in categories && (c == "DeFi" || c == "NFT/Gaming" || c == "DAO/Governance" || c == "Social/Creator")
  {
    Flags("DeFi" in categories, "NFT/Gaming" in categories, "DAO/Governance" in categories, "Social/Creator" in categories)
  }

  /** Which catalog position (0 to 5) a set of flags admits. */
  predicate Admits(f: Flags, k: nat) {
    if k <= 1 then f.defi
    else if k == 2 then f.nft || f.social
    else if k == 3 then f.dao
    else true
  }

  /** The admitted catalog entries from position `k` on, in catalog order. */
  function AdmittedFrom(f: Flags, k: nat): seq<Partner>
    requires k <= |Catalog|
    decreases |Catalog| - k
  {
    if k == |Catalog| then []
    else (if Admits(f, k) then [Catalog[k]] else []) + AdmittedFrom(f, k + 1)
  }

  /** The catalog filtered by the category flags (before truncation). */
  function Admitted(f: Flags): seq<Partner> {
    AdmittedFrom(f, 0)
  }

  function Min(a: int, b: int): int {
    if a <= b then a else b
  }

  /** The partners of the demo result: the first five admitted entries. */
  function DemoPartners(categories: seq<string>): (ps: seq<Partner>)
    ensures 2 <= |ps| <= MaxPartners
    ensures |ps| <= |Admitted(FlagsOf(categories))| && ps == Admitted(FlagsOf(categories))[..|ps|]
  {
    AdmittedLength(FlagsOf(categories));
    var all := Admitted(FlagsOf(categories));
    all[..Min(MaxPartners, |all|)]
  }

  /** `partners.reduce((sum, p) => sum + p.matchScore, 0)` */
  function SumMatch(ps: seq<Partner>): (sum: int)
    ensures (forall i :: 0 <= i < |ps| ==> ps[i].matchScore >= 0) ==> sum >= 0
  {
    if |ps| == 0 then 0 else SumMatch(ps[..|ps| - 1]) + ps[|ps| - 1].matchScore
  }

  lemma SumMatchSnoc(ps: seq<Partner>, p: Partner)
    ensures SumMatch(ps + [p]) == SumMatch(ps) + p.matchScore
  {
    assert (ps + [p])[..|ps|] == ps;
  }

  /** `Math.round(sum / n)` for positive `n`: the floor of `sum / n + 1/2`. */
  function RoundedMean(sum: int, n: nat): (r: int)
    requires n > 0
    ensures 2 * n * r <= 2 * sum + n < 2 * n * r + 2 * n
  {
    (2 * sum + n) / (2 * n)
  }

  /** The fixed text between the fields of the summary template. */
  const SummaryOpening := "Based on the analysis of "
  const SummaryCount := ", we've identified "
  const SummaryCategories := " strategic partnership opportunities that align with your "
  const SummaryStage := " focus. The partners show strong technical compatibility with your "
  const SummaryFunding := " stage project and complement your "
  const SummaryAverage :=
    " funding requirements. Key opportunities include infrastructure partnerships for technical scaling, "
    + "marketplace integrations for user acquisition, and funding platform connections for financial growth. "
    + "The average match score of "
  const SummaryClosing :=
    "% indicates high potential for successful collaborations. We recommend prioritizing discussions with "
    + "the highest-scoring partners and focusing on technical integration possibilities to accelerate your development timeline."

  /** The summary template of the demo result, as its pieces in order. */
  function Summary(input: AnalyzeRequest, partners: seq<Partner>, average: nat): (s: string)
    ensures StartsWith(s, Concat([SummaryOpening, input.name, SummaryCount, NatToString(|partners|)]))
  {
    var parts := [
      SummaryOpening, input.name,
      SummaryCount, NatToString(|partners|),
      SummaryCategories, Join(input.categories, ", "),
      SummaryStage, input.stage,
      SummaryFunding, input.fundingStage,
      SummaryAverage, NatToString(average),
      SummaryClosing];
    ConcatPrefix(parts, 4);
    assert parts[..4] == [SummaryOpening, input.name, SummaryCount, NatToString(|partners|)];
    Concat(parts)
  }

  /** The result of the generator; it carries no demo flag (the route adds it). */
  datatype DemoResult = DemoResult(summary: string, partners: seq<Partner>, average: nat)

  /**
   * `generateDemoAnalysis`: appends the admitted entries one by one, cuts the
   * list to five, and renders the summary with the count and the rounded
   * mean match score of what is left.
   */
  method GenerateDemoAnalysis(input: AnalyzeRequest) returns (r: DemoResult)
    ensures r.partners == DemoPartners(input.categories)
    ensures 2 <= |r.partners| <= MaxPartners
    ensures r.average == RoundedMean(SumMatch(r.partners), |r.partners|)
    ensures MinMatch(r.partners) <= r.average <= MaxMatch(r.partners)
    ensures r.summary == Summary(input, r.partners, r.average)
  {
    var f := FlagsOf(input.categories);
    var partners: seq<Partner> := [];
    if f.defi {
      partners := partners + [Aave];
      partners := partners + [Chainlink];
    }
    if f.nft || f.social {
      partners := partners + [OpenSea];
    }
    if f.dao {
      partners := partners + [Snapshot];
    }
    partners := partners + [Polygon];
    partners := partners + [Gitcoin];
    assert partners == Admitted(f) by {
      assert partners == Appended(f);
      AppendedIsAdmitted(f);
    }
    partners := partners[..Min(MaxPartners, |partners|)];
    DemoLength(input.categories);
    DemoAverageWithinScores(input.categories);
    var average := RoundedMean(SumMatch(partners), |partners|);
    r := DemoResult(Summary(input, partners, average), partners, average);
  }

  /** The entries appended by the generator's branches, in their order. */
  function Appended(f: Flags): seq<Partner> {
    (if f.defi then [Aave, Chainlink] else [])
    + (if f.nft || f.social then [OpenSea] else [])
    + (if f.dao then [Snapshot] else [])
    + [Polygon, Gitcoin]
  }

  /** The branch-by-branch construction is the catalog filtered by the flags. */
  lemma AppendedIsAdmitted(f: Flags)
    ensures Appended(f) == Admitted(f)
  {
    assert AdmittedFrom(f, 4) == [Polygon, Gitcoin];
    assert AdmittedFrom(f, 3) == (if f.dao then [Snapshot] else []) + [Polygon, Gitcoin];
    assert AdmittedFrom(f, 2) == (if f.nft || f.social then [OpenSea] else []) + AdmittedFrom(f, 3);
  }

  /** 1 for a flag that is set, 0 otherwise. */
  function Indicator(b: bool): nat {
    if b then 1 else 0
  }

  /** The number of admitted entries, from the flags. */
  lemma {:induction false} AdmittedLength(f: Flags)
    ensures |Admitted(f)| == 2 + 2 * Indicator(f.defi) + Indicator(f.nft || f.social) + Indicator(f.dao)
  {
    AppendedIsAdmitted(f);
  }

  /**
   * The result has min(5, 2 + 2·[DeFi] + [NFT/Gaming or Social/Creator] +
   * [DAO/Governance]) partners: between two and five, never padded to five.
   */
  lemma DemoLength(categories: seq<string>)
    ensures var f := FlagsOf(categories);
      |DemoPartners(categories)| == Min(5, 2 + 2 * Indicator(f.defi) + Indicator(f.nft || f.social) + Indicator(f.dao))
    ensures 2 <= |DemoPartners(categories)| <= 5
  {
    AdmittedLength(FlagsOf(categories));
  }

  /** Every admitted entry comes from the catalog. */
  lemma {:induction false} AdmittedFromCatalog(f: Flags, k: nat, p: Partner)
    requires k <= |Catalog|
    requires p in AdmittedFrom(f, k)
    ensures p in Catalog[k..]
    decreases |Catalog| - k
  {
    if k < |Catalog| {
      if Admits(f, k) && p == Catalog[k] {
        assert Catalog[k..][0] == p;
      } else {
        assert p in AdmittedFrom(f, k + 1);
        AdmittedFromCatalog(f, k + 1, p);
        assert Catalog[k + 1..] == Catalog[k..][1..];
      }
    }
  }

  /** Every score of every returned entry lies in [1, 100]. */
  lemma CatalogScoresInRange(categories: seq<string>)
    ensures forall p :: p in DemoPartners(categories) ==> ScoresInRange(p)
  {
    var f := FlagsOf(categories);
    assert Catalog[0..] == Catalog;
    assert forall k :: 0 <= k < |Catalog| ==> ScoresInRange(Catalog[k]);
    forall p | p in DemoPartners(categories) ensures ScoresInRange(p) {
      assert p in Admitted(f);
      AdmittedFromCatalog(f, 0, p);
    }
  }

  /** Polygon is always returned; Gitcoin is dropped exactly when DeFi, NFT/Gaming or Social/Creator, and DAO/Governance are all present. */
  lemma UniversalPartners(categories: seq<string>)
    ensures Polygon in DemoPartners(categories)
    ensures var f := FlagsOf(categories);
      Gitcoin !in DemoPartners(categories) <==> f.defi && (f.nft || f.social) && f.dao
  {
    var f := FlagsOf(categories);
    AppendedIsAdmitted(f);
    var ps := DemoPartners(categories);
    if f.defi && (f.nft || f.social) && f.dao {
      assert ps == [Aave, Chainlink, OpenSea, Snapshot, Polygon];
    } else {
      assert ps == Appended(f);
      assert ps[|ps| - 1] == Gitcoin;
    }
  }

  /** Only membership of the four literal category names matters: order, duplicates and other names do not. */
  lemma OnlyKnownCategoriesMatter(a: seq<string>, b: seq<string>)
    requires forall c :: c in ["DeFi", "NFT/Gaming", "DAO/Governance", "Social/Creator"] ==> (c in a <==> c in b)
    ensures DemoPartners(a) == DemoPartners(b)
  {
    assert "DeFi" in a <==> "DeFi" in b;
    assert "NFT/Gaming" in a <==> "NFT/Gaming" in b;
    assert "DAO/Governance" in a <==> "DAO/Governance" in b;
    assert "Social/Creator" in a <==> "Social/Creator" in b;
  }

  /** Categories = ["DeFi"]: Aave, Chainlink, Polygon, Gitcoin with rounded mean 84. */
  lemma DeFiExample()
    ensures DemoPartners(["DeFi"]) == [Aave, Chainlink, Polygon, Gitcoin]
    ensures RoundedMean(SumMatch(DemoPartners(["DeFi"])), 4) == 84
  {
    AppendedIsAdmitted(FlagsOf(["DeFi"]));
    SumMatchSnoc([], Aave);
    assert [] + [Aave] == [Aave];
    SumMatchSnoc([Aave], Chainlink);
    assert [Aave] + [Chainlink] == [Aave, Chainlink];
    SumMatchSnoc([Aave, Chainlink], Polygon);
    assert [Aave, Chainlink] + [Polygon] == [Aave, Chainlink, Polygon];
    SumMatchSnoc([Aave, Chainlink, Polygon], Gitcoin);
    assert [Aave, Chainlink, Polygon] + [Gitcoin] == [Aave, Chainlink, Polygon, Gitcoin];
  }

  /** No known category: Polygon and Gitcoin with rounded mean 82. */
  lemma NoKnownCategoryExample()
    ensures DemoPartners(["Infrastructure", "Identity/Privacy"]) == [Polygon, Gitcoin]
    ensures RoundedMean(SumMatch([Polygon, Gitcoin]), 2) == 82
  {
    AppendedIsAdmitted(FlagsOf(["Infrastructure", "Identity/Privacy"]));
    SumMatchSnoc([], Polygon);
    SumMatchSnoc([Polygon], Gitcoin);
  }

  /** The smallest and largest match score of a non-empty list. */
  function MinMatch(ps: seq<Partner>): int
    requires |ps| > 0
  {
    if |ps| == 1 then ps[0].matchScore else Min(MinMatch(ps[..|ps| - 1]), ps[|ps| - 1].matchScore)
  }

  function MaxMatch(ps: seq<Partner>): int
    requires |ps| > 0
  {
    if |ps| == 1 then ps[0].matchScore
    else if MaxMatch(ps[..|ps| - 1]) >= ps[|ps| - 1].matchScore then MaxMatch(ps[..|ps| - 1])
    else ps[|ps| - 1].matchScore
  }

  /** The sum of match scores lies between |ps|·min and |ps|·max. */
  lemma {:induction false} SumBetween(ps: seq<Partner>)
    requires |ps| > 0
    ensures |ps| * MinMatch(ps) <= SumMatch(ps) <= |ps| * MaxMatch(ps)
  {
    if |ps| > 1 {
      var init, last := ps[..|ps| - 1], ps[|ps| - 1].matchScore;
      var n, lo, hi := |init|, MinMatch(ps), MaxMatch(ps);
      SumBetween(init);
      assert SumMatch(ps) == SumMatch(init) + last;
      assert lo <= MinMatch(init) && lo <= last;
      assert MaxMatch(init) <= hi && last <= hi;
      ScaleMonotone(n, lo, MinMatch(init));
      ScaleMonotone(n, MaxMatch(init), hi);
      assert |ps| == n + 1;
      SuccTimes(n, lo);
      SuccTimes(n, hi);
    }
  }

  lemma SuccTimes(n: nat, x: int)
    ensures (n + 1) * x == n * x + x
  {
  }

  /** Multiplying by a natural number keeps order. */
  lemma ScaleMonotone(n: nat, a: int, b: int)
    requires a <= b
    ensures n * a <= n * b
  {
    assert n * b - n * a == n * (b - a);
  }

  lemma FactorLess(x: int, y: int, n: int)
    requires n > 0 && x * n < y * n
    ensures x < y
  {
    assert (y - x) * n == y * n - x * n;
  }

  /** The rounded mean of match scores lies between the smallest and the largest score. */
  lemma MeanWithinScores(ps: seq<Partner>)
    requires |ps| > 0
    ensures MinMatch(ps) <= RoundedMean(SumMatch(ps), |ps|) <= MaxMatch(ps)
  {
    var n, s, lo, hi := |ps|, SumMatch(ps), MinMatch(ps), MaxMatch(ps);
    var r := RoundedMean(s, n);
    SumBetween(ps);
    DoubleScale(n, lo);
    DoubleScale(n, hi);
    DoubleScale(n, r);
    FactorLess(r, hi + 1, 2 * n);
    FactorLess(lo, r + 1, 2 * n);
  }

  lemma DoubleScale(n: nat, x: int)
    ensures x * (2 * n) == 2 * (n * x)
    ensures (x + 1) * (2 * n) == 2 * (n * x) + 2 * n
  {
  }

  /** The generator's average lies between the smallest and largest match score it returns. */
  lemma DemoAverageWithinScores(categories: seq<string>)
    ensures var ps := DemoPartners(categories);
      |ps| > 0 && 1 <= MinMatch(ps) <= RoundedMean(SumMatch(ps), |ps|) <= MaxMatch(ps)
  {
    var ps := DemoPartners(categories);
    DemoLength(categories);
    MeanWithinScores(ps);
    MinMatchIsOneOf(ps);
    CatalogScoresInRange(categories);
    var k :| 0 <= k < |ps| && ps[k].matchScore == MinMatch(ps);
    assert ps[k] in ps;
  }

  /** The smallest match score belongs to one of the entries. */
  lemma {:induction false} MinMatchIsOneOf(ps: seq<Partner>)
    requires |ps| > 0
    ensures exists k :: 0 <= k < |ps| && ps[k].matchScore == MinMatch(ps)
  {
    if |ps| > 1 {
      MinMatchIsOneOf(ps[..|ps| - 1]);
      var k :| 0 <= k < |ps| - 1 && ps[..|ps| - 1][k].matchScore == MinMatch(ps[..|ps| - 1]);
      assert ps[k] == ps[..|ps| - 1][k];
    } else {
      assert ps[0].matchScore == MinMatch(ps);
    }
  }
}
