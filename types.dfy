/** The value types of the package: configuration, navigation entries,
    the brand and the envelope handed to every page template. */
module Types {

  /** Go's `any` as it reaches a template or a JSON encoder: either nil or
      some value whose structure the model does not look into. */
  datatype Payload = Nil | Opaque(handle: nat)

  /** A navigation entry shown in the header (Go's Label is `text`: `label` is a Dafny keyword). */
  datatype NavLink = NavLink(text: string, path: string)

  /** The project name split into a coloured prefix and a plain suffix. */
  datatype Brand = Brand(prefix: string, suffix: string)

  /** What a Web instance is created from. `projectName` is carried but
      never read by the package. */
  datatype Config = Config(
    projectName: string,
    brandPrefix: string,
    brandSuffix: string,
    adminToken: string,
    navLinks: seq<NavLink>)

  /** The envelope Render builds around project-specific data. */
  datatype PageData = PageData(
    title: string,
    error: string,
    loggedIn: bool,
    brand: Brand,
    nav: seq<NavLink>,
    data: Payload)
}
