/** The names of the conversion profiles. */
module Profiles {
  /** `NoOperation` is the empty name; `Unregistered` any other unknown one. */
  datatype Operation =
    | NoOperation
    | CompatiblePhoto | EmailPhoto | SmallerPhoto | LosslessImage
    | CompatibleVideo | SmallerVideo
    | ExtractAudio | CompatibleAudio | LosslessAudio
    | Unregistered(name: string)
}
