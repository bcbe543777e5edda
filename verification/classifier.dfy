/** The analysis of one customer utterance: the keyword rule engine that is
    the fallback path, and the credential gate in front of the hosted model. */
module Classifier {
  import opened Wrappers
  import opened Text

  /** A `{label, score}` pair, used for both sentiment and intent (`label` is a
      reserved word here, so the field is called `name`). */
  datatype Score = Score(name: string, score: real)

  /** An `{entity, value}` pair. */
  datatype Entity = Entity(entity: string, value: string)

  /** The record the rule engine returns; every field is always filled. */
  datatype Analysis = Analysis(
    sentiment: Score,
    intent: Score,
    entities: seq<Entity>,
    suggestion: string,
    reasoning: string)

  /** What `analyze_with_groq` hands back: either the record parsed from the
      hosted model's reply (of a shape this model does not constrain) or the
      rule engine's record. */
  datatype Reply<R> = FromModel(record: R) | FromRules(analysis: Analysis)

  const PricingWords: seq<string> := ["price", "cost", "much"]
  const PurchaseWords: seq<string> := ["buy", "want", "need"]

  const Pricing := "Pricing"
  const Purchase := "Purchase"
  const GeneralInquiry := "General Inquiry"

  const BudgetProbe := "It depends on the model. What is your budget range?"
  const BrandProbe := "Great! Do you have a specific brand in mind?"
  const OpenQuestion := "How can I help you today?"

  const NeutralSentiment := Score("Neutral", 0.5)
  const FallbackMarker := "⚠️ Standard rule-based fallback (Key missing or API error)."

  const TopicPrice := Entity("Topic", "Price")
  const BrandSamsung := Entity("Brand", "Samsung")
  const ProductPhone := Entity("Product", "Phone")

  /** The minimum length of a credential that is worth sending. */
  const MinKeyLength := 10

  /** The lower-cased utterance mentions a pricing keyword. */
  ghost predicate AsksPrice(text: string) {
    exists w :: w in PricingWords && IsSubstring(w, Lower(text))
  }

  /** The lower-cased utterance mentions a purchase keyword. */
  ghost predicate WantsToBuy(text: string) {
    exists w :: w in PurchaseWords && IsSubstring(w, Lower(text))
  }

  /** Position of each fallback entity in the fixed extraction order. */
  function Rank(e: Entity): nat {
    if e == TopicPrice then 0 else if e == BrandSamsung then 1 else 2
  }

  /** The keyword fallback classifier. Pricing keywords win over purchase
      keywords; the entity list is built topic, brand, product. */
  function LegacyRuleEngine(text: string): (r: Analysis)
    ensures r.sentiment == NeutralSentiment
    ensures r.intent.score == 1.0
    ensures r.reasoning == FallbackMarker
    ensures r.intent.name == Pricing <==> AsksPrice(text)
    ensures r.intent.name == Purchase <==> !AsksPrice(text) && WantsToBuy(text)
    ensures r.intent.name == GeneralInquiry <==> !AsksPrice(text) && !WantsToBuy(text)
    ensures r.suggestion == BudgetProbe <==> r.intent.name == Pricing
    ensures r.suggestion == BrandProbe <==> r.intent.name == Purchase
    ensures r.suggestion == OpenQuestion <==> r.intent.name == GeneralInquiry
    ensures TopicPrice in r.entities <==> AsksPrice(text)
    ensures BrandSamsung in r.entities <==> IsSubstring("samsung", Lower(text))
    ensures ProductPhone in r.entities <==> IsSubstring("phone", Lower(text))
    ensures forall e :: e in r.entities ==> e in [TopicPrice, BrandSamsung, ProductPhone]
    ensures forall i, j :: 0 <= i < j < |r.entities| ==> Rank(r.entities[i]) < Rank(r.entities[j])
    ensures |r.entities| <= 3
  {
    var t := Lower(text);
    var pricing := MentionsAny(t, PricingWords);
    var (intent, suggestion) :=
      if pricing then (Pricing, BudgetProbe)
      else if MentionsAny(t, PurchaseWords) then (Purchase, BrandProbe)
      else (GeneralInquiry, OpenQuestion);
    var entities :=
      (if pricing then [TopicPrice] else [])
      + (if Contains(t, "samsung") then [BrandSamsung] else [])
      + (if Contains(t, "phone") then [ProductPhone] else []);
    Analysis(NeutralSentiment, Score(intent, 1.0), entities, suggestion, FallbackMarker)
  }

  /** `not api_key or len(api_key) < 10` fails: the credential is sent. */
  predicate KeyUsable(apiKey: Option<string>) {
    apiKey.Some? && |apiKey.value| >= MinKeyLength
  }

  /** `analyze_with_groq`. The hosted model call is represented by `answer`,
      the record it would return, or `None` when the call or the parse of its
      reply raises. */
  function AnalyzeWithGroq<R>(text: string, apiKey: Option<string>, answer: Option<R>): (r: Reply<R>)
    ensures r.FromRules? ==> r.analysis == LegacyRuleEngine(text)
    ensures r.FromModel? <==> KeyUsable(apiKey) && answer.Some?
    ensures r.FromModel? ==> answer == Some(r.record)
  {
    if !KeyUsable(apiKey) then FromRules(LegacyRuleEngine(text))
    else match answer
      case Some(record) => FromModel(record)
      case None => FromRules(LegacyRuleEngine(text))
  }

  /** The properties a fallback record for `text` must have, stated without
      reference to how the rule engine computes it. */
  ghost predicate IsFallbackFor(text: string, a: Analysis) {
    && a.sentiment == NeutralSentiment
    && a.intent == Score(
         if AsksPrice(text) then Pricing
         else if WantsToBuy(text) then Purchase
         else GeneralInquiry, 1.0)
    && a.suggestion == (
         if AsksPrice(text) then BudgetProbe
         else if WantsToBuy(text) then BrandProbe
         else OpenQuestion)
    && a.reasoning == FallbackMarker
    && (TopicPrice in a.entities <==> AsksPrice(text))
    && (BrandSamsung in a.entities <==> IsSubstring("samsung", Lower(text)))
    && (ProductPhone in a.entities <==> IsSubstring("phone", Lower(text)))
    && RankedEntities(a.entities)
  }

  /** Only the three fallback entities, each at most once, in extraction order. */
  ghost predicate RankedEntities(es: seq<Entity>) {
    && (forall e :: e in es ==> e in [TopicPrice, BrandSamsung, ProductPhone])
    && (forall i, j :: 0 <= i < j < |es| ==> Rank(es[i]) < Rank(es[j]))
  }

  /** Within the three fallback entities, the rank identifies the entity. */
  lemma RankIdentifies(e: Entity, f: Entity)
    requires e in [TopicPrice, BrandSamsung, ProductPhone]
    requires f in [TopicPrice, BrandSamsung, ProductPhone]
    requires Rank(e) == Rank(f)
    ensures e == f
  {
  }

  /** Every member of a ranked list other than its head lies in its tail. */
  lemma RankedTail(xs: seq<Entity>, e: Entity)
    requires RankedEntities(xs) && xs != []
    ensures e in xs[1..] <==> e in xs && e != xs[0]
  {
  }

  /** The head of a ranked list has the least rank of all its members. */
  lemma RankedHeadLeast(xs: seq<Entity>, e: Entity)
    requires RankedEntities(xs) && e in xs
    ensures Rank(xs[0]) <= Rank(e)
  {
  }

  /** Two ranked entity lists with the same members are the same list. */
  lemma {:induction false} RankedEntitiesUnique(xs: seq<Entity>, ys: seq<Entity>)
    requires RankedEntities(xs) && RankedEntities(ys)
    requires forall e :: e in xs <==> e in ys
    ensures xs == ys
    decreases |xs|
  {
    if xs != [] {
      assert xs[0] in ys;
    }
    if ys != [] {
      assert ys[0] in xs;
    }
    if xs != [] && ys != [] {
      RankedHeadLeast(ys, xs[0]);
      RankedHeadLeast(xs, ys[0]);
      RankIdentifies(xs[0], ys[0]);
      forall e
        ensures e in xs[1..] <==> e in ys[1..]
      {
        RankedTail(xs, e);
        RankedTail(ys, e);
      }
      RankedEntitiesUnique(xs[1..], ys[1..]);
      assert xs == [xs[0]] + xs[1..];
      assert ys == [ys[0]] + ys[1..];
    }
  }

  /** The rule engine's record is the one and only fallback record for `text`. */
  lemma LegacyRuleEngineCharacterized(text: string, a: Analysis)
    ensures IsFallbackFor(text, LegacyRuleEngine(text))
    ensures IsFallbackFor(text, a) ==> a == LegacyRuleEngine(text)
  {
    var r := LegacyRuleEngine(text);
    if IsFallbackFor(text, a) {
      RankedEntitiesUnique(a.entities, r.entities);
    }
  }

  /** Classification does not depend on letter case: the engine gives the same
      record for an utterance and for its lower-cased form. */
  lemma LegacyRuleEngineIgnoresCase(text: string)
    ensures LegacyRuleEngine(Lower(text)) == LegacyRuleEngine(text)
  {
  }

  /** A missing, empty or short credential is the same as no credential: the
      reply is the rule engine's and whatever the hosted model would answer
      plays no part. */
  lemma ShortKeyNeverConsultsModel<R>(text: string, apiKey: Option<string>, a1: Option<R>, a2: Option<R>)
    requires apiKey.None? || |apiKey.value| < MinKeyLength
    ensures AnalyzeWithGroq(text, apiKey, a1) == AnalyzeWithGroq(text, None, a2)
    ensures AnalyzeWithGroq(text, apiKey, a1) == FromRules(LegacyRuleEngine(text))
  {
  }

  /** A failed model call degrades to the rule engine for any credential. */
  lemma ModelFailureFallsBack<R>(text: string, apiKey: Option<string>)
    ensures AnalyzeWithGroq<R>(text, apiKey, None) == FromRules(LegacyRuleEngine(text))
  {
  }

  const PricedSamsungPhone := "What is the price of the Samsung phone?"

  /** The keywords the end-to-end example utterance mentions. */
  lemma PricedSamsungPhoneMentions()
    ensures AsksPrice(PricedSamsungPhone)
    ensures IsSubstring("samsung", Lower(PricedSamsungPhone))
    ensures IsSubstring("phone", Lower(PricedSamsungPhone))
  {
    var t := "what is the price of the samsung phone?";
    assert Lower(PricedSamsungPhone) == t;
    KeywordsOfPricedSamsungPhone(t);
  }

  lemma KeywordsOfPricedSamsungPhone(t: string)
    requires t == "what is the price of the samsung phone?"
    ensures IsSubstring("price", t) && IsSubstring("samsung", t) && IsSubstring("phone", t)
  {
    assert t == "what is the " + "price" + " of the samsung phone?";
    OccursBetween("what is the ", "price", " of the samsung phone?");
    assert t == "what is the price of the " + "samsung" + " phone?";
    OccursBetween("what is the price of the ", "samsung", " phone?");
    assert t == "what is the price of the samsung " + "phone" + "?";
    OccursBetween("what is the price of the samsung ", "phone", "?");
  }

  /** End-to-end: "What is the price of the Samsung phone?" with no credential
      yields the pricing record with all three entities in order. */
  lemma PricedSamsungPhoneExample<R>()
    ensures AnalyzeWithGroq<R>(PricedSamsungPhone, None, None)
      == FromRules(Analysis(
           NeutralSentiment,
           Score(Pricing, 1.0),
           [TopicPrice, BrandSamsung, ProductPhone],
           BudgetProbe,
           FallbackMarker))
  {
    PricedSamsungPhoneMentions();
    var r := LegacyRuleEngine(PricedSamsungPhone);
    RankedEntitiesUnique(r.entities, [TopicPrice, BrandSamsung, ProductPhone]);
  }

  const SamsungPhoneWish := "I want a samsung phone"

  /** The purchase example mentions no pricing keyword (none of them can occur
      in a text without the letter 'c') but does mention the brand and product. */
  lemma SamsungPhoneWishMentions()
    ensures !AsksPrice(SamsungPhoneWish) && WantsToBuy(SamsungPhoneWish)
    ensures IsSubstring("samsung", Lower(SamsungPhoneWish))
    ensures IsSubstring("phone", Lower(SamsungPhoneWish))
  {
    var t := "i want a samsung phone";
    assert Lower(SamsungPhoneWish) == t;
    KeywordsOfSamsungPhoneWish(t);
    assert "want" in PurchaseWords;
  }

  lemma KeywordsOfSamsungPhoneWish(t: string)
    requires t == "i want a samsung phone"
    ensures forall w :: w in PricingWords ==> !IsSubstring(w, t)
    ensures IsSubstring("want", t) && IsSubstring("samsung", t) && IsSubstring("phone", t)
  {
    assert 'c' !in t;
    MissingCharExcludes("price", t, 'c');
    MissingCharExcludes("cost", t, 'c');
    MissingCharExcludes("much", t, 'c');
    assert t == "i " + "want" + " a samsung phone";
    OccursBetween("i ", "want", " a samsung phone");
    assert t == "i want a " + "samsung" + " phone";
    OccursBetween("i want a ", "samsung", " phone");
    assert t == "i want a samsung " + "phone" + "";
    OccursBetween("i want a samsung ", "phone", "");
  }

  /** "I want a samsung phone" with no credential is a purchase enquiry that
      names both the brand and the product. */
  lemma SamsungPhoneWishExample<R>()
    ensures AnalyzeWithGroq<R>(SamsungPhoneWish, None, None)
      == FromRules(Analysis(
           NeutralSentiment,
           Score(Purchase, 1.0),
           [BrandSamsung, ProductPhone],
           BrandProbe,
           FallbackMarker))
  {
    SamsungPhoneWishMentions();
    var r := LegacyRuleEngine(SamsungPhoneWish);
    assert r.intent == Score(Purchase, 1.0) && r.suggestion == BrandProbe;
    assert TopicPrice !in r.entities;
    assert forall e :: e in r.entities <==> e in [BrandSamsung, ProductPhone];
    RankedEntitiesUnique(r.entities, [BrandSamsung, ProductPhone]);
  }
}
