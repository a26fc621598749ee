/**
  The installation record (`VkbFeature`) and the sign record (`VkbBord`) the
  normaliser produces and the graph emitter consumes.
 */
module VkbFeature {
  import opened Wrappers

  /**
    One sign plate (`VkbBord`). Its class is not part of this model; its fields
    are the ones the two processors read and write. The angle is in tenths of a
    degree. A `None` optional field is one the normaliser left at `VkbBord`'s
    own default; the installation date keeps the `DD/MM/YYYY` text it was parsed from.
   */
  datatype Bord = Bord(
    id: int,
    aanzichtHoek: int,
    externalId: Option<string>,
    clientId: Option<string>,
    bordCode: string,
    parameters: seq<string>,
    folieType: Option<string>,
    x: int,
    y: int,
    breedte: int,
    hoogte: int,
    vorm: string,
    plaatsingDatum: Option<string>)

  /** `VkbBevestiging` and `VkbSteun` are not part of this model: the lists that hold them are only ever set to `[]`. */
  datatype Bevestiging = Bevestiging
  datatype Steun = Steun

  /**
    One installation (`VkbFeature`). The list fields are `None` until the
    normaliser sets them, which keeps "never set" apart from "set to `[]`".
    Coordinates are kept as the text Python's `str()` gives them.
   */
  datatype Feature = Feature(
    id: int,
    wktPoint: string,
    coords: Option<seq<string>>,
    externalId: string,
    clientId: string,
    borden: Option<seq<Bord>>,
    bevestigingen: Option<seq<Bevestiging>>,
    steunen: Option<seq<Steun>>,
    beheerderKey: int,
    beheerderCode: string,
    beheerderNaam: string,
    wegsegmentIds: Option<seq<string>>)

  /** `VkbFeature()`: every field at its dataclass default. */
  const NewFeature: Feature :=
    Feature(-1, "", None, "", "", None, None, None, -1, "", "", None)
}
