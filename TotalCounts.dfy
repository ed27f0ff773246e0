/**
 * Aggregate match counts per year: each per-year array holds exactly 550
 * counts, and decoding rejects any other length.
 */
module TotalCounts {
  import opened Wrappers
  import opened Ints
  import Decimal

  /** `TOTAL_COUNTS_BY_YEAR_LEN`. */
  const TotalCountsByYearLen: nat := 550

  /** `[u64; TOTAL_COUNTS_BY_YEAR_LEN]`. */
  type CountsByYear = s: seq<U64> | |s| == TotalCountsByYearLen
    witness seq(550, _ => 0)

  datatype TotalCountsByYear = TotalCountsByYear(counts: CountsByYear)

  /** `serde::de::Error::invalid_length(len, expected)`. */
  datatype DeError = InvalidLength(len: nat, expected: string)

  /** `TotalCounts`: the year range and one per-year array per n-gram length. */
  datatype TotalCounts = TotalCounts(minYear: U16, maxYear: U16, matchCounts: seq<TotalCountsByYear>)

  /**
   * `TotalCountsByYear::deserialize`, given the decoded `Vec<u64>`: copies
   * it into a zeroed 550-element array when its length is 550, and fails
   * with an invalid-length error naming the length found otherwise.
   */
  method DeserializeByYear(data: seq<U64>) returns (r: Result<TotalCountsByYear, DeError>)
    ensures r.Ok? <==> |data| == TotalCountsByYearLen
    ensures r.Ok? ==> forall i :: 0 <= i < |data| ==> r.value.counts[i] == data[i]
    ensures r.Err? ==> r.error == InvalidLength(|data|, "550")
  {
    if |data| != TotalCountsByYearLen {
      var expected := Decimal.ToDecimal(TotalCountsByYearLen);
      assert expected == "550";
      return Err(InvalidLength(|data|, expected));
    }
    var counts := new U64[TotalCountsByYearLen](_ => 0);
    for i := 0 to TotalCountsByYearLen
      invariant forall k :: 0 <= k < i ==> counts[k] == data[k]
    {
      counts[i] := data[i];
    }
    r := Ok(TotalCountsByYear(counts[..]));
  }
}
