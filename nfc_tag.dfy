/** A registered NFC tag. It carries data only; no rule of the app reads it. */
module TagModel {
  import opened Base

  /** A tag: its identifier, a display nickname and the tag's uid as a hex string. */
  datatype NfcTag = NfcTag(id: Uuid, nickname: string, uid: string)
}
