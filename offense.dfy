/** Offenses: the immutable records of one detected problem (lib/packwerk/offense.rb). */
module Offenses {
  import opened Wrappers
  import opened Strings
  import opened Packages
  import Sequences

  /**
    A plain offense (a processing error) or a reference offense, which also
    carries the offending reference and the checker's violation type.
   */
  datatype Offense =
    | Offense(file: string, message: string, location: Option<Location>, level: Option<string>)
    | ReferenceOffense(
        file: string, message: string, location: Option<Location>, level: Option<string>,
        reference: Reference, violationType: string)

  /** `Offense.new(file:, message:, location: nil, level: nil)`. */
  function NewOffense(file: string, message: string, location: Option<Location> := None, level: Option<string> := None): (o: Offense)
    ensures !o.ReferenceOffense?
    ensures o.file == file && o.message == message && o.location == location && o.level == level
  {
    Offense(file, message, location, level)
  }

  /**
    `ReferenceOffense.new(location:, reference:, violation_type:, message:)`:
    the file is the reference's relative path and no level is given.
   */
  function NewReferenceOffense(reference: Reference, violationType: string, message: string, location: Option<Location>): (o: Offense)
    ensures o.ReferenceOffense? && o.reference == reference && o.violationType == violationType
    ensures o.file == reference.relativePath && o.message == message && o.location == location && o.level.None?
  {
    ReferenceOffense(reference.relativePath, message, location, None, reference, violationType)
  }

  /** The two style strings `to_s` wraps the file name in (ANSI codes, or empty for plain output). */
  datatype OutputStyle = OutputStyle(filename: string, reset: string)

  /** The part of `to_s` between the styled file name and the newline before the message. */
  function PositionPart(o: Offense): string {
    match o.location
    case Some(loc) => ":" + NatToString(loc.line) + ":" + NatToString(loc.column)
    case None => ""
  }

  /** The header line of `to_s`, without its newline: the styled file name, then the position if there is one. */
  function Header(o: Offense, style: OutputStyle): string {
    style.filename + o.file + style.reset + PositionPart(o)
  }

  /** `Offense#to_s(style)`: a header line naming the file (and position), then the message, each ending in a newline. */
  function ToString(o: Offense, style: OutputStyle): (s: string)
    ensures IsPrefix(style.filename + o.file + style.reset, s)
    ensures IsSuffix("\n" + o.message + "\n", s)
  {
    Regroup(Header(o, style), "\n", o.message);
    SuffixOfConcat(Header(o, style), "\n" + o.message + "\n");
    Header(o, style) + "\n" + o.message + "\n"
  }

  /** The two forms of `to_s`: with a location the header carries `:line:column`, without one it is the file name alone. */
  lemma ToStringShape(o: Offense, style: OutputStyle)
    ensures o.location.None? ==>
      ToString(o, style) == style.filename + o.file + style.reset + "\n" + o.message + "\n"
    ensures o.location.Some? ==>
      ToString(o, style) == style.filename + o.file + style.reset + ":" + NatToString(o.location.value.line)
                            + ":" + NatToString(o.location.value.column) + "\n" + o.message + "\n"
  {
    if o.location.Some? {
      var name := style.filename + o.file + style.reset;
      var line, column := NatToString(o.location.value.line), NatToString(o.location.value.column);
      Sequences.ConcatAssociative(name, ":", line);
      Sequences.ConcatAssociative(name, ":" + line, ":");
      Sequences.ConcatAssociative(name, ":" + line + ":", column);
      assert Header(o, style) == name + ":" + line + ":" + column;
    }
  }

  /** Digit strings contain no colon, so the first colon ends the line number. */
  lemma SplitAtColon(a: string, b: string, a': string, b': string)
    requires IsDigits(a) && IsDigits(a')
    requires a + ":" + b == a' + ":" + b'
    ensures a == a' && b == b'
  {
    var s, s' := a + ":" + b, a' + ":" + b';
    assert s[|a|] == ':' && s'[|a'|] == ':';
    assert forall i :: 0 <= i < |a| ==> s[i] == a[i];
    assert forall i :: 0 <= i < |a'| ==> s'[i] == a'[i];
    assert |a| == |a'|;
    {
      assert a == (a + ":" + b)[..|a|];
      assert a' == (a' + ":" + b')[..|a'|];
      assert b == (a + ":" + b)[|a| + 1..];
      assert b' == (a' + ":" + b')[|a'| + 1..];
    }
  }

  /** `to_s` regrouped as its header followed by the newline-wrapped message. */
  lemma Regroup(header: string, nl: string, message: string)
    ensures header + nl + message + nl == header + (nl + message + nl)
  {
    Sequences.ConcatAssociative(header + nl, message, nl);
    Sequences.ConcatAssociative(header, nl, message + nl);
    Sequences.ConcatAssociative(nl, message, nl);
  }

  lemma CancelAround(name: string, x: string, y: string, tail: string)
    requires name + x + tail == name + y + tail
    ensures x == y
  {
    var s := name + x + tail;
    assert x == s[|name|..|s| - |tail|];
    assert y == (name + y + tail)[|name|..|s| - |tail|];
  }

  /** Behind its leading colon, the position part is `line:column`. */
  lemma DropLeadingColon(line: string, column: string)
    ensures (":" + line + ":" + column)[1..] == line + ":" + column
  {
    Sequences.ConcatAssociative(":", line, ":");
    Sequences.ConcatAssociative(":", line + ":", column);
  }

  /** The position part of `to_s` determines the location. */
  lemma PositionPartInjective(o: Offense, o': Offense)
    requires PositionPart(o) == PositionPart(o')
    ensures o.location == o'.location
  {
    match (o.location, o'.location)
    case (Some(l), Some(l')) =>
      var line, col := NatToString(l.line), NatToString(l.column);
      var line', col' := NatToString(l'.line), NatToString(l'.column);
      DropLeadingColon(line, col);
      DropLeadingColon(line', col');
      SplitAtColon(line, col, line', col');
      NatToStringInjective(l.line, l'.line);
      NatToStringInjective(l.column, l'.column);
    case (Some(l), None) =>
    case (None, Some(l')) =>
    case (None, None) =>
  }

  /**
    Two offenses for the same file and message print the same only if they
    have the same location: `to_s` never loses the position.
   */
  lemma ToStringDeterminesLocation(o: Offense, o': Offense, style: OutputStyle)
    requires o.file == o'.file && o.message == o'.message
    requires ToString(o, style) == ToString(o', style)
    ensures o.location == o'.location
  {
    var name, tail := style.filename + o.file + style.reset, "\n" + o.message + "\n";
    Regroup(name + PositionPart(o), "\n", o.message);
    Regroup(name + PositionPart(o'), "\n", o.message);
    CancelAround(style.filename + o.file + style.reset, PositionPart(o), PositionPart(o'), "\n" + o.message + "\n");
    PositionPartInjective(o, o');
  }
}
