/**
 * parseUpdateBody: an update announcement's body is a '-'-separated list of
 * items; the list shown is the trimmed, non-empty pieces in order.
 */
module UpdateBody {
  import opened JsText

  function TrimEach(parts: seq<string>): (r: seq<string>)
    ensures |r| == |parts| && forall i :: 0 <= i < |parts| ==> r[i] == Trim(parts[i])
  {
    seq(|parts|, i requires 0 <= i < |parts| => Trim(parts[i]))
  }

  /** `.filter((item) => item.length > 0)` */
  function NonEmpty(parts: seq<string>): (r: seq<string>)
    ensures forall x :: x in r <==> x in parts && x != []
  {
    if parts == [] then []
    else
      assert forall x :: x in parts <==> x == parts[0] || x in parts[1..];
      (if parts[0] != [] then [parts[0]] else []) + NonEmpty(parts[1..])
  }

  /** The filter works piece by piece, so the kept pieces stay in their order. */
  lemma {:induction false} NonEmptyAppend(a: seq<string>, b: seq<string>)
    ensures NonEmpty(a + b) == NonEmpty(a) + NonEmpty(b)
  {
    if a == [] {
      assert a + b == b;
    } else {
      assert (a + b)[1..] == a[1..] + b;
      NonEmptyAppend(a[1..], b);
    }
  }

  function ParseUpdateBody(body: string): seq<string> {
    NonEmpty(TrimEach(Split(body, '-')))
  }

  /** Every character of the trimmed string comes from the string. */
  lemma TrimInside(s: string)
    ensures forall c :: c in Trim(s) ==> c in s
  {
    var r := Trim(s);
    var k :| TrimmedAt(s, r, k);
    forall c | c in r ensures c in s {
      var j :| 0 <= j < |r| && r[j] == c;
      assert s[k + j] == c;
    }
  }

  /** The items are non-empty, have no white space at either end, and hold no '-'. */
  lemma ItemsAreClean(body: string)
    ensures forall x :: x in ParseUpdateBody(body) ==>
              x != [] && !IsSpace(x[0]) && !IsSpace(x[|x| - 1]) && '-' !in x
  {
    var pieces := Split(body, '-');
    forall x | x in ParseUpdateBody(body)
      ensures x != [] && !IsSpace(x[0]) && !IsSpace(x[|x| - 1]) && '-' !in x
    {
      var i :| 0 <= i < |pieces| && TrimEach(pieces)[i] == x;
      TrimInside(pieces[i]);
    }
  }

  lemma {:induction false} JoinBlank(parts: seq<string>, sep: char)
    requires IsBlank(Join(parts, sep))
    ensures forall i :: 0 <= i < |parts| ==> IsBlank(parts[i])
  {
    if |parts| > 1 {
      var rest := Join(parts[1..], sep);
      assert Join(parts, sep) == parts[0] + [sep] + rest;
      forall j | 0 <= j < |rest| ensures IsSpace(rest[j]) {
        assert Join(parts, sep)[|parts[0]| + 1 + j] == rest[j];
      }
      JoinBlank(parts[1..], sep);
      forall j | 0 <= j < |parts[0]| ensures IsSpace(parts[0][j]) {
        assert Join(parts, sep)[j] == parts[0][j];
      }
      forall i | 0 <= i < |parts| ensures IsBlank(parts[i]) {
        if i > 0 { assert parts[i] == parts[1..][i - 1]; }
      }
    }
  }

  /** A body of white space alone (the empty body included) shows no item. */
  lemma BlankBodyHasNoItems(body: string)
    requires IsBlank(body)
    ensures ParseUpdateBody(body) == []
  {
    var pieces := Split(body, '-');
    JoinBlank(pieces, '-');
    forall i | 0 <= i < |pieces| ensures Trim(pieces[i]) == [] {
      TrimEmptyIffBlank(pieces[i]);
    }
    NonEmptyDropsAll(TrimEach(pieces));
  }

  lemma {:induction false} NonEmptyDropsAll(parts: seq<string>)
    requires forall i :: 0 <= i < |parts| ==> parts[i] == []
    ensures NonEmpty(parts) == []
  {
    if parts != [] {
      NonEmptyDropsAll(parts[1..]);
    }
  }

  predicate Clean(x: string) {
    x != [] && !IsSpace(x[0]) && !IsSpace(x[|x| - 1]) && '-' !in x
  }

  lemma {:induction false} NonEmptyKeepsAll(parts: seq<string>)
    requires forall i :: 0 <= i < |parts| ==> parts[i] != []
    ensures NonEmpty(parts) == parts
  {
    if parts != [] {
      NonEmptyKeepsAll(parts[1..]);
    }
  }

  /** Trimming pieces that have no white space at either end changes none of them. */
  lemma TrimEachClean(items: seq<string>)
    requires forall i :: 0 <= i < |items| ==> Clean(items[i])
    ensures TrimEach(items) == items
  {
    forall i | 0 <= i < |items| ensures TrimEach(items)[i] == items[i] {
      assert Clean(items[i]);
      TrimUnchanged(items[i]);
    }
  }

  /** Writing clean items joined by '-' and parsing the body gives the items back. */
  lemma JoinedItemsRoundTrip(items: seq<string>)
    requires |items| >= 1
    requires forall i :: 0 <= i < |items| ==> Clean(items[i])
    ensures ParseUpdateBody(Join(items, '-')) == items
  {
    assert forall i :: 0 <= i < |items| ==> '-' !in items[i];
    SplitJoin(items, '-');
    TrimEachClean(items);
    NonEmptyKeepsAll(items);
  }
}
