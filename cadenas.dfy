/** The string operations of `java.lang.String` that the core relies on. */
module Cadenas {

  /** `t` occurs in `s` starting at index `i`. */
  predicate OcurreEn(s: string, t: string, i: int) {
    0 <= i && i + |t| <= |s| && s[i..i + |t|] == t
  }

  /** An occurrence in the tail of `s` is an occurrence in `s`, one place later. */
  lemma OcurreEnCola(s: string, t: string, i: int)
    requires |s| > 0 && i >= 0
    ensures OcurreEn(s[1..], t, i) <==> OcurreEn(s, t, i + 1)
  {
    if 0 <= i && i + |t| <= |s| - 1 {
      assert s[1..][i..i + |t|] == s[i + 1..i + 1 + |t|];
    }
  }

  /** An occurrence in `s` is an occurrence in `p + s`, shifted by `|p|`. */
  lemma OcurreTrasPrefijo(p: string, s: string, t: string, i: int)
    requires OcurreEn(s, t, i)
    ensures OcurreEn(p + s, t, |p| + i)
  {
    assert (p + s)[|p| + i..|p| + i + |t|] == s[i..i + |t|];
  }

  /** Java's `s.contains(t)`: some occurrence of `t` lies inside `s`. */
  function Contiene(s: string, t: string): (r: bool)
    ensures r <==> exists i :: OcurreEn(s, t, i)
    decreases |s|
  {
    if |s| < |t| then
      false
    else if s[..|t|] == t then
      assert OcurreEn(s, t, 0);
      true
    else
      var r := Contiene(s[1..], t);
      assert r ==> exists i :: OcurreEn(s, t, i) by {
        if r {
          var i :| OcurreEn(s[1..], t, i);
          OcurreEnCola(s, t, i);
        }
      }
      assert (exists i :: OcurreEn(s, t, i)) ==> r by {
        if exists i :: OcurreEn(s, t, i) {
          var i :| OcurreEn(s, t, i);
          assert i != 0;
          OcurreEnCola(s, t, i - 1);
        }
      }
      r
  }

  /** Java's `String.join(sep, ps)`. */
  function Unir(ps: seq<string>, sep: string): string
    decreases |ps|
  {
    if |ps| == 0 then ""
    else if |ps| == 1 then ps[0]
    else ps[0] + sep + Unir(ps[1..], sep)
  }

  /** Every joined element can be found in the joined text. */
  lemma {:induction false} UnirContieneCada(ps: seq<string>, sep: string, k: int)
    requires 0 <= k < |ps|
    ensures Contiene(Unir(ps, sep), ps[k])
    decreases |ps|
  {
    if |ps| == 1 {
      assert OcurreEn(Unir(ps, sep), ps[k], 0);
    } else if k == 0 {
      assert OcurreEn(Unir(ps, sep), ps[0], 0);
    } else {
      UnirContieneCada(ps[1..], sep, k - 1);
      var i :| OcurreEn(Unir(ps[1..], sep), ps[k], i);
      OcurreTrasPrefijo(ps[0] + sep, Unir(ps[1..], sep), ps[k], i);
    }
  }

  /** The first piece, the separator, and the join of the rest. */
  lemma UnirCabeza(ps: seq<string>, sep: string)
    requires |ps| >= 2
    ensures Unir(ps, sep) == ps[0] + sep + Unir(ps[1..], sep)
  {
  }

  /** The join of all but the last piece, the separator, and the last piece. */
  lemma {:induction false} UnirUltimo(ps: seq<string>, sep: string)
    requires |ps| >= 2
    ensures Unir(ps, sep) == Unir(ps[..|ps| - 1], sep) + sep + ps[|ps| - 1]
    decreases |ps|
  {
    if |ps| > 2 {
      UnirUltimo(ps[1..], sep);
      assert ps[1..][..|ps| - 2] == ps[..|ps| - 1][1..];
      assert ps[..|ps| - 1][0] == ps[0];
    } else {
      assert ps[..1] == [ps[0]];
    }
  }

  /** Total length of a sequence of strings. */
  function Longitud(ps: seq<string>): nat
    decreases |ps|
  {
    if ps == [] then 0 else |ps[0]| + Longitud(ps[1..])
  }

  /** A join is as long as its pieces plus one separator between each two. */
  lemma {:induction false} LongitudUnir(ps: seq<string>, sep: string)
    requires |ps| >= 1
    ensures |Unir(ps, sep)| == Longitud(ps) + (|ps| - 1) * |sep|
    decreases |ps|
  {
    if |ps| > 1 {
      LongitudUnir(ps[1..], sep);
    } else {
      assert Longitud(ps[1..]) == 0;
    }
  }

  /** Splits `s` at every occurrence of `c`, keeping empty pieces, so that
      `Unir(Separar(s, c), [c]) == s`. */
  function Separar(s: string, c: char): (r: seq<string>)
    ensures |r| >= 1
  {
    if s == [] then [[]]
    else
      var resto := Separar(s[1..], c);
      if s[0] == c then [[]] + resto
      else [[s[0]] + resto[0]] + resto[1..]
  }

  /** A prefix free of `c` stays glued to the first piece. */
  lemma {:induction false} SepararPrefijo(a: string, s: string, c: char)
    requires c !in a
    ensures Separar(a + s, c) == [a + Separar(s, c)[0]] + Separar(s, c)[1..]
  {
    if a != [] {
      assert (a + s)[0] == a[0];
      assert (a + s)[1..] == a[1..] + s;
      SepararPrefijo(a[1..], s, c);
      assert [a[0]] + (a[1..] + Separar(s, c)[0]) == a + Separar(s, c)[0];
    } else {
      var r := Separar(s, c);
      assert a + s == s && a + r[0] == r[0];
      assert [r[0]] + r[1..] == r;
    }
  }

  /** Splitting undoes joining when no piece holds the separator. */
  lemma {:induction false} SepararUnir(ps: seq<string>, c: char)
    requires |ps| >= 1
    requires forall k :: 0 <= k < |ps| ==> c !in ps[k]
    ensures Separar(Unir(ps, [c]), c) == ps
    decreases |ps|
  {
    if |ps| == 1 {
      SepararPrefijo(ps[0], [], c);
      assert ps[0] + [] == ps[0];
    } else {
      var resto := Unir(ps[1..], [c]);
      SepararUnir(ps[1..], c);
      assert ([c] + resto)[1..] == resto;
      assert Separar([c] + resto, c) == [[]] + ps[1..];
      assert Unir(ps, [c]) == ps[0] + ([c] + resto);
      SepararPrefijo(ps[0], [c] + resto, c);
      assert ps[0] + [] == ps[0];
    }
  }
}
