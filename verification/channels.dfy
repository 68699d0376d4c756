/**
 * The channel-mix builder of the channels page (`handleGenerate`): substring
 * triggers on the lower-cased audience, market and seed choose which entries are
 * pushed, a region test chooses the event and the trade media, and the page
 * language only chooses the wording.
 */
module Channels {
  import opened Wrappers
  import opened Strings
  import opened Records
  import opened Language
  import opened Gravity

  /** The three audience triggers. */
  datatype Triggers = Triggers(instagram: bool, immune: bool, probiotics: bool)

  /** `isInstagram`, `isImmune` and `isProbiotics`, on the lower-cased inputs. */
  function AudienceTriggers(audience: string, seed: string): Triggers {
    var a := ToLower(audience);
    var s := ToLower(seed);
    Triggers(
      Contains(a, "gen z") || Contains(a, "millennial") || Contains(a, "visual") || Contains(a, "color")
        || Contains(a, "food porn") || Contains(a, "estética"),
      Contains(a, "immune") || Contains(a, "inmune") || Contains(a, "inmuno") || Contains(s, "immune"),
      Contains(a, "probiotic") || Contains(a, "probiótico") || Contains(a, "microbiom"))
  }

  datatype Region = USA | Asia | Europe

  /** `isUSA` is tested before `isAsia`; neither means the European default. */
  function RegionOf(market: string): (r: Region)
    ensures r == USA <==> (|| Contains(ToLower(market), "usa") || Contains(ToLower(market), "us")
                           || Contains(ToLower(market), "america") || Contains(ToLower(market), "states"))
    ensures r == Asia ==> (|| Contains(ToLower(market), "asia") || Contains(ToLower(market), "china")
                           || Contains(ToLower(market), "japan") || Contains(ToLower(market), "apac"))
    ensures r == Europe ==> !Contains(ToLower(market), "asia") && !Contains(ToLower(market), "china")
                            && !Contains(ToLower(market), "japan") && !Contains(ToLower(market), "apac")
  {
    var m := ToLower(market);
    if Contains(m, "usa") || Contains(m, "us") || Contains(m, "america") || Contains(m, "states") then USA
    else if Contains(m, "asia") || Contains(m, "china") || Contains(m, "japan") || Contains(m, "apac") then Asia
    else Europe
  }

  /** The trade fair and the trade media of a region. */
  datatype Venue = Venue(event: string, media: string)

  function VenueOf(r: Region): Venue {
    match r
    case USA => Venue("SupplySide West (Las Vegas)", "Nutraceuticals World / SupplySide Supplement Journal")
    case Asia => Venue("Vitafoods Asia / CPhI Japan", "NutraIngredients-Asia")
    case Europe => Venue("Vitafoods Europe (Geneva)", "NutraIngredients.com")
  }

  function LinkedInName(l: Lang): string {
    match l
    case Es => "Contenido Patrocinado LinkedIn (B2B)"
    case Ca => "Contingut Patrocinat LinkedIn (B2B)"
    case En => "LinkedIn Sponsored Content (B2B)"
  }

  function JournalName(l: Lang, media: string): string {
    match l
    case Es => "Revistas: " + media + " (Print & Digital)"
    case Ca => "Revistes: " + media + " (Print & Digital)"
    case En => "Journals: " + media + " (Print & Digital)"
  }

  function EventsName(l: Lang, event: string): string {
    match l
    case Es => "Eventos: " + event
    case Ca => "Esdeveniments: " + event
    case En => "Events: " + event
  }

  const Instagram: Channel := Channel("Instagram / TikTok (Visual Storytelling)", Digital, 88)
  const ImmunePortal: Channel := Channel("Indian Journal of Clinical Biochemistry", Digital, 92)
  const ProbioticsPortal: Channel := Channel("The Probiotics Institute (Chr. Hansen Ecosystem)", Digital, 92)

  /** The optional entries: Instagram on its trigger, then at most one scientific portal. */
  function Optional(t: Triggers): (r: seq<Channel>)
    ensures |r| <= 2
  {
    (if t.instagram then [Instagram] else [])
      + (if t.immune then [ImmunePortal] else if t.probiotics then [ProbioticsPortal] else [])
  }

  /** The list for given triggers and venue: LinkedIn, the optional entries, then journal and events. */
  function MixOf(lang: Lang, t: Triggers, v: Venue): (r: seq<Channel>)
    ensures 3 <= |r| <= 5
    ensures forall k :: 0 <= k < |r| ==> r[k].relevance <= 100
  {
    [Channel(LinkedInName(lang), Digital, 95)] + Optional(t)
      + [Channel(JournalName(lang, v.media), Traditional, 85), Channel(EventsName(lang, v.event), Traditional, 90)]
  }

  /** The list the page builds for its inputs. */
  function ChannelMix(lang: Lang, seed: string, market: string, audience: string): (r: seq<Channel>)
    ensures 3 <= |r| <= 5
    ensures forall k :: 0 <= k < |r| ==> r[k].relevance <= 100
  {
    MixOf(lang, AudienceTriggers(audience, seed), VenueOf(RegionOf(market)))
  }

  /** The pushes common to all three language branches once LinkedIn is in place. */
  method PushOptional(t: Triggers, start: seq<Channel>) returns (r: seq<Channel>)
    ensures r == start + Optional(t)
  {
    r := start;
    if t.instagram {
      r := r + [Channel("Instagram / TikTok (Visual Storytelling)", Digital, 88)];
    }
    if t.immune {
      r := r + [Channel("Indian Journal of Clinical Biochemistry", Digital, 92)];
    } else if t.probiotics {
      r := r + [Channel("The Probiotics Institute (Chr. Hansen Ecosystem)", Digital, 92)];
    }
  }

  /** The region test of `handleGenerate`: `event` and `media` start at the European pair and are reassigned. */
  method PickVenue(market: string) returns (event: string, media: string)
    ensures Venue(event, media) == VenueOf(RegionOf(market))
  {
    var marketLower := ToLower(market);
    var isUSA := Contains(marketLower, "usa") || Contains(marketLower, "us") || Contains(marketLower, "america") || Contains(marketLower, "states");
    var isAsia := Contains(marketLower, "asia") || Contains(marketLower, "china") || Contains(marketLower, "japan") || Contains(marketLower, "apac");
    event := "Vitafoods Europe (Geneva)";
    media := "NutraIngredients.com";
    if isUSA {
      event := "SupplySide West (Las Vegas)";
      media := "Nutraceuticals World / SupplySide Supplement Journal";
    } else if isAsia {
      event := "Vitafoods Asia / CPhI Japan";
      media := "NutraIngredients-Asia";
    }
  }

  /** The pushes of `handleGenerate`, one branch per page language. */
  method PushEntries(lang: Lang, t: Triggers, event: string, media: string) returns (newChannels: seq<Channel>)
    ensures newChannels == MixOf(lang, t, Venue(event, media))
  {
    newChannels := [];
    if lang == Es {
      newChannels := newChannels + [Channel("Contenido Patrocinado LinkedIn (B2B)", Digital, 95)];
      newChannels := PushOptional(t, newChannels);
      newChannels := newChannels + [Channel("Revistas: " + media + " (Print & Digital)", Traditional, 85)];
      newChannels := newChannels + [Channel("Eventos: " + event, Traditional, 90)];
    } else if lang == Ca {
      newChannels := newChannels + [Channel("Contingut Patrocinat LinkedIn (B2B)", Digital, 95)];
      newChannels := PushOptional(t, newChannels);
      newChannels := newChannels + [Channel("Revistes: " + media + " (Print & Digital)", Traditional, 85)];
      newChannels := newChannels + [Channel("Esdeveniments: " + event, Traditional, 90)];
    } else {
      newChannels := newChannels + [Channel("LinkedIn Sponsored Content (B2B)", Digital, 95)];
      newChannels := PushOptional(t, newChannels);
      newChannels := newChannels + [Channel("Journals: " + media + " (Print & Digital)", Traditional, 85)];
      newChannels := newChannels + [Channel("Events: " + event, Traditional, 90)];
    }
  }

  /** `handleGenerate`'s body: the triggers, the venue, then the pushes. */
  method BuildChannels(lang: Lang, seed: string, market: string, audience: string) returns (newChannels: seq<Channel>)
    ensures newChannels == ChannelMix(lang, seed, market, audience)
  {
    var t := AudienceTriggers(audience, seed);
    var event, media := PickVenue(market);
    newChannels := PushEntries(lang, t, event, media);
  }

  /** The page's own state; the wizard and the language come from their providers. */
  class ChannelsPage {
    var market: string
    var audience: string
    var loading: bool
    var channels: seq<Channel>

    constructor ()
      ensures market == "" && audience == "" && !loading && channels == []
    {
      market := "";
      audience := "";
      loading := false;
      channels := [];
    }

    /** `handleGenerate` once its timer fires: the same list goes to `setChannels` and to `completeStep`. */
    method HandleGenerate(lang: Lang, wizard: GravityProvider<Payload>)
      requires wizard.Valid()
      modifies this, wizard
      ensures channels == ChannelMix(lang, wizard.seed, market, audience)
      ensures wizard.Valid() && wizard.steps == CompletedSteps(old(wizard.steps), "channels", Some(ChannelList(channels)))
      ensures wizard.seed == old(wizard.seed) && wizard.budget == old(wizard.budget) && wizard.market == old(wizard.market)
      ensures market == old(market) && audience == old(audience) && !loading
    {
      loading := true;
      var newChannels := BuildChannels(lang, wizard.seed, market, audience);
      channels := newChannels;
      wizard.CompleteStep("channels", Some(ChannelList(newChannels)));
      loading := false;
    }
  }

  // ---------------------------------------------------------------------------
  // Properties of the mix
  // ---------------------------------------------------------------------------

  /** The order and the conditions of every entry. */
  lemma MixShape(lang: Lang, seed: string, market: string, audience: string)
    ensures var r := ChannelMix(lang, seed, market, audience);
            var t := AudienceTriggers(audience, seed);
            && r[0] == Channel(LinkedInName(lang), Digital, 95)
            && (Instagram in r <==> t.instagram)
            && (t.instagram ==> r[1] == Instagram)
            && |r| == 3 + (if t.instagram then 1 else 0) + (if t.immune || t.probiotics then 1 else 0)
            && r[|r| - 2] == Channel(JournalName(lang, VenueOf(RegionOf(market)).media), Traditional, 85)
            && r[|r| - 1] == Channel(EventsName(lang, VenueOf(RegionOf(market)).event), Traditional, 90)
  {
    MixOfShape(lang, AudienceTriggers(audience, seed), VenueOf(RegionOf(market)));
  }

  lemma MixOfShape(lang: Lang, t: Triggers, v: Venue)
    ensures var r := MixOf(lang, t, v);
            && r[0] == Channel(LinkedInName(lang), Digital, 95)
            && (Instagram in r <==> t.instagram)
            && (t.instagram ==> r[1] == Instagram)
            && |r| == 3 + (if t.instagram then 1 else 0) + (if t.immune || t.probiotics then 1 else 0)
            && r[|r| - 2] == Channel(JournalName(lang, v.media), Traditional, 85)
            && r[|r| - 1] == Channel(EventsName(lang, v.event), Traditional, 90)
  {
    var r := MixOf(lang, t, v);
    if Instagram in r {
      var k :| 0 <= k < |r| && r[k] == Instagram;
      assert k != 0 && k != |r| - 1 && k != |r| - 2;
    }
  }

  /** At most one scientific portal is pushed, and the immune trigger wins over the probiotic one. */
  lemma AtMostOnePortal(lang: Lang, seed: string, market: string, audience: string)
    ensures var r := ChannelMix(lang, seed, market, audience);
            var t := AudienceTriggers(audience, seed);
            && (ImmunePortal in r <==> t.immune)
            && (ProbioticsPortal in r <==> !t.immune && t.probiotics)
            && !(ImmunePortal in r && ProbioticsPortal in r)
  {
    MixOfPortals(lang, AudienceTriggers(audience, seed), VenueOf(RegionOf(market)));
  }

  lemma MixOfPortals(lang: Lang, t: Triggers, v: Venue)
    ensures var r := MixOf(lang, t, v);
            && (ImmunePortal in r <==> t.immune)
            && (ProbioticsPortal in r <==> !t.immune && t.probiotics)
  {
    var r := MixOf(lang, t, v);
    if ImmunePortal in r {
      var k :| 0 <= k < |r| && r[k] == ImmunePortal;
      assert k != 0 && k != |r| - 1 && k != |r| - 2;
    }
    if ProbioticsPortal in r {
      var k :| 0 <= k < |r| && r[k] == ProbioticsPortal;
      assert k != 0 && k != |r| - 1 && k != |r| - 2;
    }
  }

  /** What an entry is apart from its wording. */
  function Profile(cs: seq<Channel>): seq<(ChannelKind, nat)> {
    seq(|cs|, k requires 0 <= k < |cs| => (cs[k].kind, cs[k].relevance))
  }

  /** Kinds and relevances depend on the triggers only, not on the language or the venue. */
  lemma ProfileOfMix(l1: Lang, l2: Lang, t: Triggers, v1: Venue, v2: Venue)
    ensures Profile(MixOf(l1, t, v1)) == Profile(MixOf(l2, t, v2))
  {
    var a, b := MixOf(l1, t, v1), MixOf(l2, t, v2);
    assert |a| == |b|;
    forall k | 0 <= k < |a| ensures a[k].kind == b[k].kind && a[k].relevance == b[k].relevance {
    }
  }

  /** The three language branches push the same kinds and relevances in the same order. */
  lemma SameProfileInEveryLanguage(l1: Lang, l2: Lang, seed: string, market: string, audience: string)
    ensures Profile(ChannelMix(l1, seed, market, audience)) == Profile(ChannelMix(l2, seed, market, audience))
  {
    var v := VenueOf(RegionOf(market));
    ProfileOfMix(l1, l2, AudienceTriggers(audience, seed), v, v);
  }

  /** Any market whose lower-cased name contains "us" gets the US venue, "Australia" included. */
  lemma AustraliaCountsAsUSA()
    ensures RegionOf("Australia") == USA
    ensures VenueOf(RegionOf("Australia")).event == "SupplySide West (Las Vegas)"
  {
    var m := ToLower("Australia");
    assert "Australia"[1] == 'u' && "Australia"[2] == 's';
    assert LowerChar('u') == 'u' && LowerChar('s') == 's';
    assert m[1] == LowerChar("Australia"[1]) && m[2] == LowerChar("Australia"[2]);
    assert m[1..3] == "us";
    assert OccursAt(m, "us", 1);
  }
}
