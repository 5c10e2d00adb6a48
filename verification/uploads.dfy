/** Paths under which the forms upload images to the file store. */
module Uploads {
  import Text

  /** A file the user picked; only its name reaches the model. */
  datatype ImageFile = ImageFile(name: string)

  /** `${folder}/${uid}/${time}_${name}`: the folder, the uploader's uid,
      the clock reading in decimal, an underscore and the file's own name. */
  function UploadPath(folder: string, uid: string, time: nat, name: string): (r: string)
    ensures var head := folder + "/" + uid + "/";
      && |head| < |r| - |name| - 1
      && r[..|head|] == head
      && r[|r| - |name| - 1..] == "_" + name
      && Text.IsNumeral(r[|head|..|r| - |name| - 1])
      && Text.ParseDecimal(r[|head|..|r| - |name| - 1]) == time
  {
    var head := folder + "/" + uid + "/";
    var stamp := Text.Decimal(time);
    var r := head + stamp + "_" + name;
    assert r[|head|..|r| - |name| - 1] == stamp;
    Text.DecimalRoundTrip(time);
    r
  }

  /** Position of the first underscore in `s`, or `|s|` when there is none. */
  function FirstUnderscore(s: string): (r: nat)
    ensures r <= |s|
  {
    if s == [] || s[0] == '_' then 0 else 1 + FirstUnderscore(s[1..])
  }

  /** A numeral contains no underscore, so the one that follows it is the first. */
  lemma {:induction false} UnderscoreAfterNumeral(a: string, x: string)
    requires Text.IsNumeral(a)
    ensures FirstUnderscore(a + "_" + x) == |a|
    decreases |a|
  {
    if a != [] {
      assert (a + "_" + x)[1..] == a[1..] + "_" + x;
      UnderscoreAfterNumeral(a[1..], x);
    }
  }

  /** One user's uploads into one folder never share a path unless they
      were made at the same clock reading with the same file name. */
  lemma UploadPathInjective(folder: string, uid: string, t1: nat, n1: string, t2: nat, n2: string)
    requires UploadPath(folder, uid, t1, n1) == UploadPath(folder, uid, t2, n2)
    ensures t1 == t2 && n1 == n2
  {
    var p := folder + "/" + uid + "/";
    var d1, d2 := Text.Decimal(t1), Text.Decimal(t2);
    var s1, s2 := d1 + "_" + n1, d2 + "_" + n2;
    assert UploadPath(folder, uid, t1, n1) == p + s1;
    assert UploadPath(folder, uid, t2, n2) == p + s2;
    assert s1 == (p + s1)[|p|..] == (p + s2)[|p|..] == s2;
    SplitStamp(d1, n1, d2, n2);
    Text.DecimalInjective(t1, t2);
  }

  /** `stamp_name` splits back into its numeral and its name. */
  lemma SplitStamp(d1: string, n1: string, d2: string, n2: string)
    requires Text.IsNumeral(d1) && Text.IsNumeral(d2)
    requires d1 + "_" + n1 == d2 + "_" + n2
    ensures d1 == d2 && n1 == n2
  {
    var s1, s2 := d1 + "_" + n1, d2 + "_" + n2;
    UnderscoreAfterNumeral(d1, n1);
    UnderscoreAfterNumeral(d2, n2);
    assert d1 == s1[..|d1|] == s2[..|d2|] == d2;
    assert n1 == s1[|d1| + 1..] == s2[|d2| + 1..] == n2;
  }
}
