/** The upstream record shapes of the three option sources. */

/** nixos.json (indexer/nixos/nixos.go): `example` and `default` are
    `{text}` objects, kept here as their text. */
module Nixos {
  const Prefix: string := "nixpkgs/option/"

  datatype Package = Package(
    exampleText: string,
    optionType: string,
    description: string,
    declarations: seq<string>,
    defaultText: string)
}

/** home-manager.json (indexer/homemanager/homemanager.go): declarations are
    `{name, url}` objects. */
module Homemanager {
  const Prefix: string := "home-manager/option/"

  datatype Declaration = Declaration(name: string, url: string)

  datatype Package = Package(
    exampleText: string,
    optionType: string,
    description: string,
    declarations: seq<Declaration>,
    defaultText: string)
}

/** darwin.json (indexer/darwin/darwin.go): the option map sits under
    `packages`; `default` and `example` are plain strings. */
module Darwin {
  const Prefix: string := "darwin/option/"

  datatype Package = Package(
    optionType: string,
    default: string,
    example: string,
    declaredBy: seq<string>,
    description: string)
}

/** The canonical records of the index (indexer/indexType.go). */
module IndexType {
  datatype Option = Option(
    source: string,
    description: string,
    example: string,
    optionType: string,
    declarations: seq<string>,
    default: string)

  datatype Maintainer = Maintainer(name: string, email: string, github: string, githubId: int)

  datatype License = License(free: bool, fullName: string, spdxId: string)

  datatype Package = Package(
    source: string,
    name: string,
    version: string,
    description: string,
    longDescription: string,
    mainProgram: string,
    homepages: seq<string>,
    maintainers: seq<Maintainer>,
    platforms: seq<string>,
    platformsSimplify: seq<string>,
    position: string,
    positionUrl: string,
    broken: bool,
    vulnerable: bool,
    licenses: seq<License>,
    unfree: bool,
    insecure: bool,
    knownVulnerabilities: seq<string>)
}
