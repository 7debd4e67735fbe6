/**
  The privacy checker (lib/packwerk/reference_checking/checkers/privacy_checker.rb):
  a reference is a privacy violation when it names a private constant of a
  package that enforces privacy and the constant is not exempted.
 */
module PrivacyChecking {
  import opened Wrappers
  import opened Strings
  import opened Packages
  import opened Offenses
  import opened CheckerInterface

  /** `VIOLATION_TYPE`, returned by `violation_type`. */
  const ViolationType: string := "privacy"

  /** `enforcement_disabled?`: the setting is `false` or nil. */
  predicate EnforcementDisabled(option: EnforcePrivacy) {
    option == Absent || option == Flag(false)
  }

  /** `explicitly_public_constant?`: the constant's name is listed. */
  predicate ExplicitlyPublicConstant(c: ConstantContext, explicitlyPublicConstants: seq<string>) {
    c.name in explicitlyPublicConstants
  }

  /** The `any?` in `explicitly_private_constant?`: the name starts with some entry followed by "::". */
  predicate AnyNestedUnder(entries: seq<string>, name: string) {
    if entries == [] then false
    else IsPrefix(entries[0] + "::", name) || AnyNestedUnder(entries[1..], name)
  }

  /** The recursive search finds exactly the entries the name is nested under. */
  lemma {:induction false} AnyNestedUnderIff(entries: seq<string>, name: string)
    ensures AnyNestedUnder(entries, name) <==> exists e :: e in entries && IsPrefix(e + "::", name)
  {
    if entries != [] {
      AnyNestedUnderIff(entries[1..], name);
      assert forall e :: e in entries <==> e == entries[0] || e in entries[1..];
    }
  }

  /** `explicitly_private_constant?`: the name is an entry, or is nested under one. */
  predicate ExplicitlyPrivateConstant(c: ConstantContext, explicitlyPrivateConstants: seq<string>) {
    c.name in explicitlyPrivateConstants || AnyNestedUnder(explicitlyPrivateConstants, c.name)
  }

  /** `invalid_reference?`, with its early returns in source order. */
  predicate InvalidReference(r: Reference) {
    var pkg := r.constant.package;
    if r.constant.isPublic then false
    else if EnforcementDisabled(pkg.enforcePrivacy)
      || ExplicitlyPrivateConstant(r.constant, pkg.explicitlyPrivateConstants) then false
    else if ExplicitlyPublicConstant(r.constant, pkg.publicConstants) then false
    else true
  }

  /** `enforce_privacy.to_s`. */
  function PrivacyOptionString(option: EnforcePrivacy): (s: string)
    ensures option == Absent ==> s == ""
    ensures option == Flag(true) ==> s == "true"
    ensures option == Flag(false) ==> s == "false"
    ensures option.Setting? ==> s == option.value
  {
    match option
    case Absent => ""
    case Flag(b) => if b then "true" else "false"
    case Setting(v) => v
  }

  /** `violation_level(offense)`: the owning package's `enforce_privacy`, stringified; never nil. */
  function ViolationLevel(o: Offense): (level: Option<string>)
    requires o.ReferenceOffense?
    ensures level.Some?
  {
    Some(PrivacyOptionString(o.reference.constant.package.enforcePrivacy))
  }

  /** A privacy violation is classified as relaxed exactly when the owning package sets `enforce_privacy: "relaxed"`. */
  lemma ViolationLevelRelaxedIff(o: Offense)
    requires o.ReferenceOffense?
    ensures ViolationLevel(o) == Some("relaxed") <==> o.reference.constant.package.enforcePrivacy == Setting("relaxed")
  {
  }

  const Headline: string := "Privacy violation: '"

  const EntrypointQuestion: string :=
    "\nIs there a public entrypoint from any of the following constants that you can use instead?\n"

  /** The first line of the message, without its newline. */
  function MessageHeadline(r: Reference): string {
    var n, p, s := r.constant.name, r.constant.package.name, r.sourcePackage.name;
    Headline + (n + ("' is private to '" + (p + ("' but referenced from '" + (s + "'.")))))
  }

  /** The line suggesting public entrypoints, without its newline. */
  function Suggestion(r: Reference): string {
    "--> '" + (Join(r.constant.package.publicConstants, ", ") + "'")
  }

  /**
    `message(reference)`: names the constant, its package and the referencing
    package, suggests the package's public constants, and ends with the
    standard help footer and no newline.
   */
  function Message(r: Reference): (m: string)
    ensures IsPrefix(MessageHeadline(r), m)
    ensures IsInfix(Suggestion(r), m)
    ensures IsSuffix("\n\n" + StandardHelpMessage(r), m)
    ensures m[|m| - 1] != '\n'
  {
    var help := StandardHelpMessage(r);
    LastOfConcat("\n\n", help);
    ChompedHeredoc(MessageHeadline(r), EntrypointQuestion, Suggestion(r), "\n\n" + help)
  }

  /** The message mentions the constant, its owning package and the referencing package. */
  lemma MessageNamesParties(r: Reference)
    ensures IsInfix(r.constant.name, Message(r))
    ensures IsInfix(r.constant.package.name, Message(r))
    ensures IsInfix(r.sourcePackage.name, Message(r))
  {
    var n, p, s := r.constant.name, r.constant.package.name, r.sourcePackage.name;
    var fromS := s + "'.";
    var fromB := "' but referenced from '" + fromS;
    var fromP := p + fromB;
    var fromA := "' is private to '" + fromP;
    var fromN := n + fromA;
    InfixStart(s, "'.");
    InfixGrowsLeft(s, "' but referenced from '", fromS);
    InfixStart(p, fromB);
    InfixGrowsLeft(s, p, fromB);
    InfixGrowsLeft(p, "' is private to '", fromP);
    InfixGrowsLeft(s, "' is private to '", fromP);
    InfixStart(n, fromA);
    InfixGrowsLeft(p, n, fromA);
    InfixGrowsLeft(s, n, fromA);
    InfixGrowsLeft(n, Headline, fromN);
    InfixGrowsLeft(p, Headline, fromN);
    InfixGrowsLeft(s, Headline, fromN);
    assert MessageHeadline(r) == Headline + fromN;
    InfixOfPrefix(n, MessageHeadline(r), Message(r));
    InfixOfPrefix(p, MessageHeadline(r), Message(r));
    InfixOfPrefix(s, MessageHeadline(r), Message(r));
  }

  /** Every public constant of the owning package is suggested in the message. */
  lemma MessageSuggestsPublicConstants(r: Reference, k: nat)
    requires k < |r.constant.package.publicConstants|
    ensures IsInfix(r.constant.package.publicConstants[k], Message(r))
  {
    var joined := Join(r.constant.package.publicConstants, ", ");
    var x := r.constant.package.publicConstants[k];
    JoinContains(r.constant.package.publicConstants, ", ", k);
    InfixGrowsRight(x, joined, "'");
    InfixGrowsLeft(x, "--> '", joined + "'");
    InfixOfInfix(x, Suggestion(r), Message(r));
  }

  // Properties of `invalid_reference?`, one per early return.

  lemma PublicConstantNeverInvalid(r: Reference)
    requires r.constant.isPublic
    ensures !InvalidReference(r)
  {
  }

  lemma DisabledEnforcementNeverInvalid(r: Reference)
    requires r.constant.package.enforcePrivacy in {Absent, Flag(false)}
    ensures !InvalidReference(r)
  {
  }

  /** A constant equal to, or nested under, an explicitly private entry is exempt. */
  lemma ExplicitlyPrivateNeverInvalid(r: Reference, entry: string)
    requires entry in r.constant.package.explicitlyPrivateConstants
    requires r.constant.name == entry || IsPrefix(entry + "::", r.constant.name)
    ensures !InvalidReference(r)
  {
    AnyNestedUnderIff(r.constant.package.explicitlyPrivateConstants, r.constant.name);
  }

  /** Nesting is by whole name segments: `Foo::BarBaz` is not nested under `Foo::Bar`. */
  lemma NestingIsBySegment(c: ConstantContext)
    requires c.name == "Foo::BarBaz"
    ensures !ExplicitlyPrivateConstant(c, ["Foo::Bar"])
  {
    var entries := ["Foo::Bar"];
    assert c.name != entries[0] by {
      assert |c.name| != |entries[0]|;
    }
    assert !IsPrefix(entries[0] + "::", c.name) by {
      assert c.name[8] == 'B' && (entries[0] + "::")[8] == ':';
    }
    assert entries[1..] == [];
    assert !AnyNestedUnder(entries, c.name);
  }

  lemma ExplicitlyPublicNeverInvalid(r: Reference)
    requires r.constant.name in r.constant.package.publicConstants
    ensures !InvalidReference(r)
  {
  }

  /**
    When no exemption applies the reference is invalid, whatever the enabling
    setting (`true`, "strict", "relaxed" or any other string); and only then.
   */
  lemma InvalidReferenceIff(r: Reference)
    ensures InvalidReference(r) <==>
      && !r.constant.isPublic
      && r.constant.package.enforcePrivacy !in {Absent, Flag(false)}
      && (forall e :: e in r.constant.package.explicitlyPrivateConstants ==>
            r.constant.name != e && !IsPrefix(e + "::", r.constant.name))
      && r.constant.name !in r.constant.package.publicConstants
  {
    AnyNestedUnderIff(r.constant.package.explicitlyPrivateConstants, r.constant.name);
  }
}
