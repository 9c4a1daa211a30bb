/** The automod section of a guild record and the `/automod` subcommands
    (commands/automod/automod.js). */
module Automod {
  import opened Common

  datatype Feature = AntiSpam | AntiInvite | AntiLink | AntiMention | AntiCaps | AntiSwear

  const AllFeatures: set<Feature> := {AntiSpam, AntiInvite, AntiLink, AntiMention, AntiCaps, AntiSwear}

  lemma EveryFeatureListed(f: Feature)
    ensures f in AllFeatures
  {
    match f
    case AntiSpam =>
    case AntiInvite =>
    case AntiLink =>
    case AntiMention =>
    case AntiCaps =>
    case AntiSwear =>
  }

  /** The features that carry a numeric threshold. */
  datatype ThresholdFeature = SpamMessages | Mentions | CapsPercent

  /** The punishment choices offered by the action subcommand. */
  datatype Action = Delete | Warn | Timeout | DeleteWarn | DeleteTimeout

  /** The feature option: one feature or "all". */
  datatype Choice = All | One(feature: Feature)

  /** The type option of exempt / unexempt. */
  datatype Target = RoleTarget | ChannelTarget

  datatype Reply =
    | Done
    | InvalidId        // the id is not all digits
    | NotFound         // no role / channel with that id
    | NotExempt        // unexempt of an id that is not listed
    | MissingWord      // wordlist add/remove without a word
    | AlreadyListed    // the word is already banned
    | NotListed        // the word to remove is not banned

  class Settings {
    var enabled: bool
    var features: map<Feature, bool>
    var exemptRoles: seq<string>
    var exemptChannels: seq<string>
    var action: Action
    var thresholds: map<ThresholdFeature, int>
    var bannedWords: seq<string>

    /** What the subcommands keep true: the six feature flags are all present,
        the master flag is on only while some feature is on, the id lists hold
        digit strings without repeats and the banned words are distinct and in
        lower case. */
    ghost predicate Valid()
      reads this
    {
      && features.Keys == AllFeatures
      && (enabled ==> AnyFeatureOn())
      && NoDups(exemptRoles) && NoDups(exemptChannels) && NoDups(bannedWords)
      && (forall i :: 0 <= i < |exemptRoles| ==> IsAllDigits(exemptRoles[i]))
      && (forall i :: 0 <= i < |exemptChannels| ==> IsAllDigits(exemptChannels[i]))
      && (forall i :: 0 <= i < |bannedWords| ==> IsLowerCase(bannedWords[i]))
    }

    /** `Object.values(features).some(v => v === true)`. */
    predicate AnyFeatureOn()
      reads this
    {
      exists f :: f in features && features[f]
    }

    /** The state a freshly created section is in. */
    ghost predicate Initial()
      reads this
    {
      && !enabled && action == Delete && exemptRoles == [] && exemptChannels == [] && bannedWords == []
      && (features.Keys == AllFeatures && forall f :: f in features ==> !features[f])
      && thresholds == map[SpamMessages := 5, Mentions := 5, CapsPercent := 70]
    }

    /** The section created when a guild has none. */
    constructor ()
      ensures Initial() && Valid()
    {
      enabled := false;
      features := map[AntiSpam := false, AntiInvite := false, AntiLink := false,
                      AntiMention := false, AntiCaps := false, AntiSwear := false];
      exemptRoles := [];
      exemptChannels := [];
      action := Delete;
      thresholds := map[SpamMessages := 5, Mentions := 5, CapsPercent := 70];
      bannedWords := [];
    }

    /** `Object.keys(features).forEach(key => features[key] = value)`. */
    method SetEveryFeature(value: bool)
      modifies this`features
      ensures features.Keys == old(features.Keys)
      ensures forall f :: f in features ==> features[f] == value
    {
      var pending := features.Keys;
      while pending != {}
        invariant pending <= features.Keys == old(features.Keys)
        invariant forall f :: f in features && f !in pending ==> features[f] == value
        decreases pending
      {
        var f :| f in pending;
        features := features[f := value];
        pending := pending - {f};
      }
    }

    method Enable(choice: Choice)
      modifies this`enabled, this`features
      ensures enabled
      ensures choice == All ==> features.Keys == old(features.Keys) && forall f :: f in features ==> features[f]
      ensures choice.One? ==> features == old(features)[choice.feature := true]
      ensures old(Valid()) ==> Valid()
    {
      enabled := true;
      if choice == All {
        SetEveryFeature(true);
        assert old(features.Keys) == AllFeatures ==> AntiSpam in features;
      } else {
        EveryFeatureListed(choice.feature);
        features := features[choice.feature := true];
        assert features[choice.feature];
      }
    }

    method Disable(choice: Choice)
      modifies this`enabled, this`features
      ensures choice == All ==>
                !enabled && features.Keys == old(features.Keys) && forall f :: f in features ==> !features[f]
      ensures choice.One? ==> features == old(features)[choice.feature := false]
      ensures choice.One? ==> enabled == (old(enabled) && AnyFeatureOn())
      ensures old(Valid()) ==> Valid()
    {
      if choice == All {
        enabled := false;
        SetEveryFeature(false);
      } else {
        EveryFeatureListed(choice.feature);
        features := features[choice.feature := false];
        if !AnyFeatureOn() {
          enabled := false;
        }
      }
    }

    /** Adds an id to an exemption list; `found` is whether the role or channel
        could be fetched. An id already listed is accepted without a change. */
    method Exempt(target: Target, id: string, found: bool) returns (r: Reply)
      modifies this`exemptRoles, this`exemptChannels
      ensures r == (if !IsAllDigits(id) then InvalidId else if !found then NotFound else Done)
      ensures exemptRoles == if r == Done && target == RoleTarget then AppendIfAbsent(old(exemptRoles), id) else old(exemptRoles)
      ensures exemptChannels == if r == Done && target == ChannelTarget then AppendIfAbsent(old(exemptChannels), id) else old(exemptChannels)
      ensures old(Valid()) ==> Valid()
    {
      if !IsAllDigits(id) {
        return InvalidId;
      }
      if !found {
        return NotFound;
      }
      if target == RoleTarget {
        if NoDups(exemptRoles) { AppendIfAbsentNoDups(exemptRoles, id); }
        exemptRoles := AppendIfAbsent(exemptRoles, id);
      } else {
        if NoDups(exemptChannels) { AppendIfAbsentNoDups(exemptChannels, id); }
        exemptChannels := AppendIfAbsent(exemptChannels, id);
      }
      return Done;
    }

    method Unexempt(target: Target, id: string) returns (r: Reply)
      modifies this`exemptRoles, this`exemptChannels
      ensures var list := if target == RoleTarget then old(exemptRoles) else old(exemptChannels);
              r == (if id in list then Done else NotExempt)
      ensures exemptRoles == if target == RoleTarget then RemoveFirst(old(exemptRoles), id) else old(exemptRoles)
      ensures exemptChannels == if target == ChannelTarget then RemoveFirst(old(exemptChannels), id) else old(exemptChannels)
      ensures old(Valid()) ==> Valid()
    {
      if target == RoleTarget {
        r := if id in exemptRoles then Done else NotExempt;
        if NoDups(exemptRoles) { RemoveFirstNoDups(exemptRoles, id); }
        RemoveFirstMultiset(exemptRoles, id);
        exemptRoles := RemoveFirst(exemptRoles, id);
      } else {
        r := if id in exemptChannels then Done else NotExempt;
        if NoDups(exemptChannels) { RemoveFirstNoDups(exemptChannels, id); }
        RemoveFirstMultiset(exemptChannels, id);
        exemptChannels := RemoveFirst(exemptChannels, id);
      }
    }

    method SetAction(a: Action)
      modifies this`action
      ensures action == a
    {
      action := a;
    }

    method SetThreshold(f: ThresholdFeature, value: int)
      modifies this`thresholds
      ensures thresholds == old(thresholds)[f := value]
    {
      thresholds := thresholds[f := value];
    }

    /** `wordlist add`: the word is stored in lower case, once. */
    method AddWord(word: Option<string>) returns (r: Reply)
      modifies this`bannedWords
      ensures word.None? || word.value == [] ==> r == MissingWord && bannedWords == old(bannedWords)
      ensures word.Some? && word.value != [] ==>
                var w := ToLower(word.value);
                && r == (if w in old(bannedWords) then AlreadyListed else Done)
                && bannedWords == AppendIfAbsent(old(bannedWords), w)
      ensures old(Valid()) ==> Valid()
    {
      if word.None? || word.value == [] {
        return MissingWord;
      }
      var w := ToLower(word.value);
      if w in bannedWords {
        return AlreadyListed;
      }
      bannedWords := bannedWords + [w];
      return Done;
    }

    /** `wordlist remove`: matches the lower-cased word. */
    method RemoveWord(word: Option<string>) returns (r: Reply)
      modifies this`bannedWords
      ensures word.None? || word.value == [] ==> r == MissingWord && bannedWords == old(bannedWords)
      ensures word.Some? && word.value != [] ==>
                var w := ToLower(word.value);
                && r == (if w in old(bannedWords) then Done else NotListed)
                && bannedWords == RemoveFirst(old(bannedWords), w)
      ensures old(Valid()) ==> Valid()
    {
      if word.None? || word.value == [] {
        return MissingWord;
      }
      var w := ToLower(word.value);
      r := if w in bannedWords then Done else NotListed;
      if NoDups(bannedWords) { RemoveFirstNoDups(bannedWords, w); }
      RemoveFirstMultiset(bannedWords, w);
      bannedWords := RemoveFirst(bannedWords, w);
    }
  }
}
