/** getUserData: the pipe-delimited user-data blob, split, counted, converted
    and mapped by position into GameServerUserData. */
module UserData {
  import opened GoStrings
  import opened GoStrconv

  /** The field count getUserData checks for. */
  const CheckedFieldCount: nat := 5
  /** The number of fields getUserData reads (indices 0 to 7). */
  const SchemaFieldCount: nat := 8
  const Separator: char := '|'

  datatype GameServerUserData = GameServerUserData(
    hostedZone: string,
    dnsName: string,
    volumeId: string,
    runPath: string,
    stopPath: string,
    idlePath: string,
    idleInterval: int,
    idleConsecutiveTimesForShutdown: int)

  /** How getUserData ends once the blob has been read. IndexOutOfRange is
      the Go runtime panic raised by indexing past the end of the fields. */
  datatype ParseResult =
    | Malformed           // "user data was malformed or not complete"
    | IndexOutOfRange(index: nat)
    | BadInterval         // "idle interval was malformed"
    | BadThreshold        // "idle consecutive times for shutdown was malformed"
    | Ok(config: GameServerUserData)

  /** The six text fields of a configuration, in blob order. */
  function TextFields(c: GameServerUserData): seq<string>
  {
    [c.hostedZone, c.dnsName, c.volumeId, c.runPath, c.stopPath, c.idlePath]
  }

  /** The checks and the positional mapping that follow the split, for a
      count check against `width`: the count test first, then field 6 read
      and converted, then field 7, then the record. */
  function CheckAndMap(fields: seq<string>, width: nat): (r: ParseResult)
    ensures r.Malformed? <==> |fields| != width
    ensures r.Ok? ==>
      && |fields| == width >= SchemaFieldCount
      && TextFields(r.config) == fields[..6]
      && Atoi(fields[6]) == Int(r.config.idleInterval)
      && Atoi(fields[7]) == Int(r.config.idleConsecutiveTimesForShutdown)
  {
    if |fields| != width then Malformed
    else if |fields| <= 6 then IndexOutOfRange(6)
    else match Atoi(fields[6])
      case NotInt => BadInterval
      case Int(interval) =>
        if |fields| <= 7 then IndexOutOfRange(7)
        else match Atoi(fields[7])
          case NotInt => BadThreshold
          case Int(times) =>
            Ok(GameServerUserData(fields[0], fields[1], fields[2], fields[3], fields[4], fields[5],
                                  interval, times))
  }

  /** getUserData as written: the count is checked against 5, after which
      fields 6 and 7 are read. The one blob shape that passes the check (four
      separators) panics on field 6, every other one is malformed, so no
      blob yields a configuration and the two conversion errors are dead. */
  function ParseUserData(blob: string): (r: ParseResult)
    ensures r.Malformed? <==> CountChar(blob, Separator) != CheckedFieldCount - 1
    ensures r == IndexOutOfRange(6) <==> CountChar(blob, Separator) == CheckedFieldCount - 1
    ensures !r.Ok? && !r.BadInterval? && !r.BadThreshold?
  {
    CheckAndMap(Split(blob, Separator), CheckedFieldCount)
  }

  /** getUserData with the count checked against the eight fields it reads. */
  function ParseUserDataFixed(blob: string): (r: ParseResult)
    ensures r.Malformed? <==> CountChar(blob, Separator) != SchemaFieldCount - 1
    ensures !r.IndexOutOfRange?
    ensures r.BadInterval? <==>
      CountChar(blob, Separator) == SchemaFieldCount - 1 && Atoi(Split(blob, Separator)[6]).NotInt?
    ensures r.BadThreshold? <==>
      && CountChar(blob, Separator) == SchemaFieldCount - 1
      && Atoi(Split(blob, Separator)[6]).Int?
      && Atoi(Split(blob, Separator)[7]).NotInt?
  {
    CheckAndMap(Split(blob, Separator), SchemaFieldCount)
  }

  /** The blob layout hostedZone|dnsName|volumeId|runPath|stopPath|idlePath|
      idleInterval|idleConsecutiveTimesForShutdown, integers in Itoa form. */
  function Encode(c: GameServerUserData): string
  {
    Join(TextFields(c) + [Itoa(c.idleInterval), Itoa(c.idleConsecutiveTimesForShutdown)], Separator)
  }

  /** A configuration a blob can carry: no separator inside a text field and
      both numbers within a Go int. */
  predicate Encodable(c: GameServerUserData)
  {
    && (forall i :: 0 <= i < 6 ==> Separator !in TextFields(c)[i])
    && InIntRange(c.idleInterval)
    && InIntRange(c.idleConsecutiveTimesForShutdown)
  }

  /** The corrected parser returns every encodable configuration unchanged. */
  lemma FixedRoundTrip(c: GameServerUserData)
    requires Encodable(c)
    ensures ParseUserDataFixed(Encode(c)) == Ok(c)
  {
    var fields := TextFields(c) + [Itoa(c.idleInterval), Itoa(c.idleConsecutiveTimesForShutdown)];
    ItoaAlphabet(c.idleInterval, Separator);
    ItoaAlphabet(c.idleConsecutiveTimesForShutdown, Separator);
    SplitJoin(fields, Separator);
    AtoiItoa(c.idleInterval);
    AtoiItoa(c.idleConsecutiveTimesForShutdown);
    assert fields[..6] == TextFields(c);
  }

  /** The as-written parser never returns a configuration, whatever the blob,
      even the encoding of a perfectly good one. */
  lemma AsWrittenRejectsEveryEncoding(c: GameServerUserData)
    requires Encodable(c)
    ensures ParseUserData(Encode(c)) == Malformed
  {
    var fields := TextFields(c) + [Itoa(c.idleInterval), Itoa(c.idleConsecutiveTimesForShutdown)];
    ItoaAlphabet(c.idleInterval, Separator);
    ItoaAlphabet(c.idleConsecutiveTimesForShutdown, Separator);
    SplitJoin(fields, Separator);
  }

  /** A blob with exactly five fields passes the count check and then panics
      reading field 6. */
  lemma FiveFieldsPanic()
    ensures ParseUserData("a|b|c|d|e") == IndexOutOfRange(6)
  {
  }
}
