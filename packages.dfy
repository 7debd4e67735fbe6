/**
  The values the reference checker consumes from the parser, the constant
  resolver and the package loader. Only the fields the checking engine reads
  are kept.
 */
module Packages {
  import opened Wrappers

  /** A package's `enforce_privacy` setting: unset (nil), a boolean, or a string such as "strict" or "relaxed". */
  datatype EnforcePrivacy = Absent | Flag(enabled: bool) | Setting(value: string)

  datatype Package = Package(
    name: string,
    enforcePrivacy: EnforcePrivacy,
    explicitlyPrivateConstants: seq<string>,
    publicConstants: seq<string>)

  /** A position in a source file. */
  datatype Location = Location(line: nat, column: nat)

  /** A resolved constant: its fully qualified name, the file that defines it, its visibility and its owning package. */
  datatype ConstantContext = ConstantContext(
    name: string,
    location: string,
    isPublic: bool,
    package: Package)

  /** One use of a constant, found in `relativePath` inside `sourcePackage`. */
  datatype Reference = Reference(
    sourcePackage: Package,
    relativePath: string,
    sourceLocation: Option<Location>,
    constant: ConstantContext)
}
