/** The Preferences namespace the firmware persists to: a typed key/value
    store. Each key holds a value of the width it was written with; a getter
    returns its default when the key is missing or holds another type. */
module Prefs {
  import opened Config

  datatype Entry = UChar(u8: U8) | UShort(u16: U16) | UInt(u32: U32)

  type Store = map<string, Entry>

  function GetUChar(s: Store, key: string, dflt: U8): U8 {
    if key in s && s[key].UChar? then s[key].u8 else dflt
  }

  function GetUShort(s: Store, key: string, dflt: U16): U16 {
    if key in s && s[key].UShort? then s[key].u16 else dflt
  }

  function GetUInt(s: Store, key: string, dflt: U32): U32 {
    if key in s && s[key].UInt? then s[key].u32 else dflt
  }

  /** `putUChar`: the argument is narrowed to `uint8_t`. */
  function PutUChar(s: Store, key: string, v: int): Store {
    s[key := UChar(v % Two8)]
  }

  function PutUShort(s: Store, key: string, v: U16): Store {
    s[key := UShort(v)]
  }

  function PutUInt(s: Store, key: string, v: U32): Store {
    s[key := UInt(v)]
  }
}
