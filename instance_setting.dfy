/**
 * The pure side of store/instance_setting.go: setting keys and their names,
 * the conversion of a raw database row into a typed setting, and the
 * conversion of a whole listing. protojson is a parameter (`Codec`).
 */
module InstanceSettings {
  import opened Wrappers
  import opened Errors
  import opened Strings
  import opened StoreModel

  /** storepb.InstanceSettingKey: UNSPECIFIED (0), BASIC and any other enum number. */
  datatype SettingKey = KeyUnspecified | KeyBasic | KeyNumber(n: int)

  /** InstanceSettingKey.String(): the enum value name, or the number for an unnamed value. */
  function KeyName(k: SettingKey): string {
    match k
    case KeyUnspecified => "INSTANCE_SETTING_KEY_UNSPECIFIED"
    case KeyBasic => "BASIC"
    case KeyNumber(n) => IntToString(n)
  }

  /** The fields of storepb.InstanceBasicSetting, kept abstract. */
  datatype BasicSetting = BasicSetting(fields: map<string, string>)

  const EmptyBasicSetting: BasicSetting := BasicSetting(map[])

  datatype InstanceSetting = InstanceSetting(key: SettingKey, basic: BasicSetting)

  /** protojson.Marshal / protojsonUnmarshaler.Unmarshal; None is a codec error. */
  datatype Codec = Codec(marshal: BasicSetting -> Option<string>, unmarshal: string -> Option<BasicSetting>)

  /** Unmarshalling what was marshalled gives the setting back. */
  ghost predicate RoundTrips(codec: Codec) {
    forall b, json :: codec.marshal(b) == Some(json) ==> codec.unmarshal(json) == Some(b)
  }

  const CodecError: Error := PlainError("proto: syntax error")

  /**
   * convertInstanceSettingFromRaw: a row named BASIC becomes a BASIC setting
   * (or the unmarshal error); every other row is skipped as (nil, nil).
   */
  function ConvertFromRaw(raw: InstanceSettingRow, codec: Codec): (r: Result<Option<InstanceSetting>>)
    ensures raw.name != KeyName(KeyBasic) ==> r == Ok(None)
    ensures r.Ok? && r.value.Some? ==> r.value.value.key == KeyBasic && codec.unmarshal(raw.value) == Some(r.value.value.basic)
    ensures raw.name == KeyName(KeyBasic) && codec.unmarshal(raw.value).Some? ==> r.Ok? && r.value.Some?
  {
    if raw.name == KeyName(KeyBasic) then
      match codec.unmarshal(raw.value)
      case None => Err(CodecError)
      case Some(b) => Ok(Some(InstanceSetting(KeyBasic, b)))
    else Ok(None)
  }

  /** The outcome of ListInstanceSettings' loop: the settings kept so far and the conversion error that stopped it, if any. */
  datatype Listing = Listing(kept: seq<InstanceSetting>, failure: Option<Error>)

  /** Converting rows in order, skipping unsupported ones and stopping at the first error. */
  function ConvertRows(rows: seq<InstanceSettingRow>, codec: Codec): (r: Listing)
    ensures |r.kept| <= |rows|
    ensures forall s :: s in r.kept ==> s.key == KeyBasic
    decreases |rows|
  {
    if rows == [] then Listing([], None)
    else
      var prefix := ConvertRows(rows[..|rows| - 1], codec);
      if prefix.failure.Some? then prefix
      else match ConvertFromRaw(rows[|rows| - 1], codec)
        case Err(e) => Listing(prefix.kept, Some(Wrap(e, "Failed to convert instance setting")))
        case Ok(None) => prefix
        case Ok(Some(s)) => Listing(prefix.kept + [s], None)
  }

  /** Rows with no BASIC name convert to nothing, without error. */
  lemma {:induction false} NoBasicRowsListNothing(rows: seq<InstanceSettingRow>, codec: Codec)
    requires forall i :: 0 <= i < |rows| ==> rows[i].name != KeyName(KeyBasic)
    ensures ConvertRows(rows, codec) == Listing([], None)
    decreases |rows|
  {
    if rows != [] {
      NoBasicRowsListNothing(rows[..|rows| - 1], codec);
    }
  }

  /** A single decodable BASIC row is listed as exactly that setting. */
  lemma SingleBasicRow(row: InstanceSettingRow, codec: Codec)
    requires row.name == KeyName(KeyBasic) && codec.unmarshal(row.value).Some?
    ensures ConvertRows([row], codec) == Listing([InstanceSetting(KeyBasic, codec.unmarshal(row.value).value)], None)
  {
    assert [row][..0] == [];
  }
}
