/**
 * `generateDS`, the "dynamic secret" header value: the current Unix time in
 * seconds, six random ASCII letters and the MD5 digest of a salted string,
 * joined by commas. The clock reading, the six random draws and the MD5
 * function are inputs here.
 */
module RequestHelper {
  import opened Wrappers
  import opened Strings

  const Salt: string := "6s25p5ox5y14umn1p61aqyyvbvvl3lrt"

  /**
   * The 52-letter alphabet the random segment is drawn from, a..z then A..Z
   * (written in four pieces of thirteen letters).
   */
  const Letters: string := "abcdefghijklm" + "nopqrstuvwxyz" + "ABCDEFGHIJKLM" + "NOPQRSTUVWXYZ"

  /** `Math.floor(Math.random() * characters.length)`: an index into `Letters`. */
  type LetterIndex = i: nat | i < 52

  /** How many random letters the secret carries. */
  const RandomLength: nat := 6

  /** `Math.floor(date.getTime() / 1000)`: whole seconds since the epoch. */
  function Seconds(nowMillis: int): (t: int)
    ensures t * 1000 <= nowMillis < t * 1000 + 1000
  {
    nowMillis / 1000
  }

  /** The letter at `i`: lower case for 0..25, upper case for 26..51. */
  function LetterAt(i: LetterIndex): (c: char)
    ensures i < 26 ==> IsLower(c) && c as int - 'a' as int == i
    ensures 26 <= i ==> IsUpper(c) && c as int - 'A' as int == i - 26
  {
    if i < 26 then ('a' as int + i) as char else ('A' as int + i - 26) as char
  }

  /** The alphabet constant is the letters a..z followed by A..Z. */
  lemma LettersInOrder(i: LetterIndex)
    ensures |Letters| == 52 && Letters[i] == LetterAt(i)
  {
  }

  /** No letter occurs twice in the alphabet. */
  lemma LetterAtInjective(i: LetterIndex, j: LetterIndex)
    requires LetterAt(i) == LetterAt(j)
    ensures i == j
  {
  }

  /** The letters chosen by the first `n` draws, in draw order. */
  function Drawn(draw: nat -> LetterIndex, n: nat): (r: string)
    ensures |r| == n
    ensures forall k :: 0 <= k < n ==> r[k] == LetterAt(draw(k))
  {
    seq(n, k requires 0 <= k < n => LetterAt(draw(k)))
  }

  /** The text handed to MD5. */
  function HashInput(time: int, random: string): string
  {
    "salt=" + Salt + "&t=" + IntToString(time) + "&r=" + random
  }

  /** The secret for a clock reading, a source of draws and an MD5 function. */
  function DynamicSecret(nowMillis: int, draw: nat -> LetterIndex, md5: string -> string): string
  {
    var time := Seconds(nowMillis);
    var random := Drawn(draw, RandomLength);
    Join([IntToString(time), random, md5(HashInput(time, random))], ",")
  }

  /**
   * `generateDS()`: the random segment is built one letter per loop step,
   * then the three parts are joined by commas.
   */
  method GenerateDS(nowMillis: int, draw: nat -> LetterIndex, md5: string -> string) returns (ds: string)
    ensures ds == DynamicSecret(nowMillis, draw, md5)
  {
    var time := nowMillis / 1000;
    var random := "";
    for i := 0 to RandomLength
      invariant random == Drawn(draw, i)
    {
      LettersInOrder(draw(i));
      random := random + [Letters[draw(i)]];
    }
    var hash := md5("salt=" + Salt + "&t=" + IntToString(time) + "&r=" + random);
    ds := IntToString(time) + "," + random + "," + hash;
    var parts := [IntToString(time), random, hash];
    assert parts[1..] == [random, hash] && parts[1..][1..] == [hash];
    assert Join(parts[1..], ",") == random + "," + hash;
  }

  /**
   * Splitting the secret on commas gives back its three parts: the time as
   * decimal text, the six random letters and the digest (which, being
   * hexadecimal, holds no comma).
   */
  lemma {:induction false} SecretFields(nowMillis: int, draw: nat -> LetterIndex, md5: string -> string)
    requires ',' !in md5(HashInput(Seconds(nowMillis), Drawn(draw, RandomLength)))
    ensures var fields := Split(DynamicSecret(nowMillis, draw, md5), ",");
      && |fields| == 3
      && ParseInt(fields[0]) == Some(Seconds(nowMillis))
      && fields[1] == Drawn(draw, RandomLength)
      && fields[2] == md5(HashInput(Seconds(nowMillis), Drawn(draw, RandomLength)))
  {
    var time := Seconds(nowMillis);
    var random := Drawn(draw, RandomLength);
    var hash := md5(HashInput(time, random));
    var words := [IntToString(time), random, hash];
    assert ',' !in IntToString(time) by {
      var t := IntToString(time);
      if ',' in t {
        var k :| 0 <= k < |t| && t[k] == ',';
        assert k == 0 || IsDigit(t[k]) by {
          if k > 0 && time < 0 {
            assert t[1..][k - 1] == t[k];
          }
        }
      }
    }
    assert forall k :: 0 <= k < |random| ==> random[k] != ',';
    assert forall w :: w in words ==> ',' !in w;
    SplitJoin(words, ',');
    ParseIntOfIntToString(time);
  }

  /**
   * The random segment is six ASCII letters, and it determines the six draws
   * it was built from.
   */
  lemma RandomSegmentDeterminesDraws(d1: nat -> LetterIndex, d2: nat -> LetterIndex)
    requires Drawn(d1, RandomLength) == Drawn(d2, RandomLength)
    ensures forall k :: 0 <= k < RandomLength ==> d1(k) == d2(k)
  {
    forall k | 0 <= k < RandomLength ensures d1(k) == d2(k) {
      assert Drawn(d1, RandomLength)[k] == Drawn(d2, RandomLength)[k];
      LetterAtInjective(d1(k), d2(k));
    }
  }
}
