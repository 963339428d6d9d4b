/** The signal-strength wording of the device scanner (rssi_to_word). */
module Scanner {

  /** The five labels, from worst to best. */
  const Words: seq<string> := ["Very Poor", "Poor", "Fair", "Good", "Excellent"]

  /** The word for a received signal strength in dBm: thresholds -50, -60, -70 and -80. */
  function RssiToWord(rssi: int): (w: string)
    ensures w in Words
    ensures w == "Excellent" <==> -50 <= rssi
    ensures w == "Good" <==> -60 <= rssi < -50
    ensures w == "Fair" <==> -70 <= rssi < -60
    ensures w == "Poor" <==> -80 <= rssi < -70
    ensures w == "Very Poor" <==> rssi < -80
  {
    if rssi >= -50 then "Excellent"
    else if rssi >= -60 then "Good"
    else if rssi >= -70 then "Fair"
    else if rssi >= -80 then "Poor"
    else "Very Poor"
  }

  /** The position of a label in Words: 0 for "Very Poor" up to 4 for "Excellent". */
  function Rank(w: string): (r: nat)
    requires w in Words
    ensures r < |Words| && Words[r] == w
  {
    if w == "Very Poor" then 0
    else if w == "Poor" then 1
    else if w == "Fair" then 2
    else if w == "Good" then 3
    else 4
  }

  /** A stronger signal never gets a worse word. */
  lemma RssiToWordMonotone(a: int, b: int)
    requires a <= b
    ensures Rank(RssiToWord(a)) <= Rank(RssiToWord(b))
  {
  }

  /** Each label's rank is the number of thresholds (-80, -70, -60, -50) the signal reaches. */
  lemma RankCountsThresholds(rssi: int)
    ensures Rank(RssiToWord(rssi)) ==
      (if rssi >= -80 then 1 else 0) + (if rssi >= -70 then 1 else 0) +
      (if rssi >= -60 then 1 else 0) + (if rssi >= -50 then 1 else 0)
  {
  }
}
