/**
  The self-contained declarations of src/client/GameSave.h: the result kinds a
  save decoder reports, the exception that carries one, and the stick-man
  equipment record with its hasData test. The decoder, encoder, transform and
  resize operations are only declared in that header and are not modelled.
*/
module GameSaveHeader {
  import opened Options

  /** The outcome kinds of parsing a save, in declaration order. */
  datatype ParseResult = OK | Corrupt | WrongVersion | InvalidDimensions | InternalError | MissingElement

  /** Every kind, in declaration order. */
  function AllParseResults(): seq<ParseResult> {
    [OK, Corrupt, WrongVersion, InvalidDimensions, InternalError, MissingElement]
  }

  /** The enumerator's numeric value: OK is 0, the others follow in order. */
  function Ordinal(r: ParseResult): (n: nat)
    ensures n < |AllParseResults()| && AllParseResults()[n] == r
    ensures n == 0 <==> r == OK
  {
    match r
    case OK => 0
    case Corrupt => 1
    case WrongVersion => 2
    case InvalidDimensions => 3
    case InternalError => 4
    case MissingElement => 5
  }

  /** The kind with numeric value `n`, if there is one. */
  function FromOrdinal(n: int): (r: Option<ParseResult>)
    ensures r.Some? <==> 0 <= n < 6
    ensures r.Some? ==> Ordinal(r.value) == n
  {
    if 0 <= n < |AllParseResults()| then Some(AllParseResults()[n]) else None
  }

  /** There are exactly six kinds, with six distinct values 0 to 5. */
  lemma SixDistinctKinds()
    ensures |AllParseResults()| == 6
    ensures forall r :: r in AllParseResults()
    ensures forall i, j :: 0 <= i < j < |AllParseResults()| ==> AllParseResults()[i] != AllParseResults()[j]
    ensures forall r, s :: Ordinal(r) == Ordinal(s) ==> r == s
  {
    forall r ensures r in AllParseResults() {
      assert AllParseResults()[Ordinal(r)] == r;
    }
  }

  /** Ordinal and FromOrdinal are inverse on the six kinds. */
  lemma OrdinalRoundTrip(r: ParseResult, n: int)
    ensures FromOrdinal(Ordinal(r)) == Some(r)
    ensures 0 <= n < 6 ==> Ordinal(FromOrdinal(n).value) == n
  {
  }

  /**
    A failed parse, with its kind and a message. The source converts the
    message to UTF-8 bytes; that conversion is not modelled.
  */
  datatype ParseException = ParseException(result: ParseResult, message: string)
  {
    /** The message the exception reports. */
    function What(): string {
      message
    }
  }

  /** A ParseException keeps the kind and the message it was constructed with. */
  lemma ParseExceptionKeepsArguments(result: ParseResult, message: string)
    ensures ParseException(result, message).result == result
    ensures ParseException(result, message).What() == message
  {
  }

  /** An unsigned 32-bit particle index. */
  newtype uint32 = x: int | 0 <= x < 0x1_0000_0000

  /** Stick-man equipment: boot and fan flags for the two players, and the fighters that carry each. */
  datatype StkmData = StkmData(
    rocketBoots1: bool, rocketBoots2: bool, fan1: bool, fan2: bool,
    rocketBootsFigh: seq<uint32>, fanFigh: seq<uint32>)
  {
    /** The record holds something worth saving. */
    predicate HasData()
      ensures !HasData() <==> this == StkmData(false, false, false, false, [], [])
    {
      rocketBoots1 || rocketBoots2 || fan1 || fan2 || |rocketBootsFigh| != 0 || |fanFigh| != 0
    }
  }

  /** A default-constructed record: every flag off, both lists empty. */
  function DefaultStkmData(): (s: StkmData)
    ensures !s.rocketBoots1 && !s.rocketBoots2 && !s.fan1 && !s.fan2
    ensures s.rocketBootsFigh == [] && s.fanFigh == []
    ensures !s.HasData()
  {
    StkmData(false, false, false, false, [], [])
  }

  /** Any flag that is on makes the record worth saving. */
  lemma FlagMeansData(s: StkmData)
    requires s.rocketBoots1 || s.rocketBoots2 || s.fan1 || s.fan2
    ensures s.HasData()
  {
  }

  /** Any fighter in either list makes the record worth saving. */
  lemma FighterMeansData(s: StkmData)
    requires |s.rocketBootsFigh| > 0 || |s.fanFigh| > 0
    ensures s.HasData()
  {
  }

  /**
    The record holds nothing exactly when it equals the default one, and the
    test looks only at the flags and at whether each list is empty.
  */
  lemma NoDataIsDefault(s: StkmData, t: StkmData)
    ensures !s.HasData() <==> s == DefaultStkmData()
    ensures s.rocketBoots1 == t.rocketBoots1 && s.rocketBoots2 == t.rocketBoots2 &&
            s.fan1 == t.fan1 && s.fan2 == t.fan2 &&
            (s.rocketBootsFigh == [] <==> t.rocketBootsFigh == []) && (s.fanFigh == [] <==> t.fanFigh == [])
            ==> s.HasData() == t.HasData()
  {
  }
}
