/**
 * The list operations of the student table: the search filter, appending a
 * created student and replacing an updated one by `sid`.
 */
module StudentList {
  import opened Text
  import opened Types

  /**
   * The search predicate: the lower-cased query occurs in the lower-cased first
   * or last name, or in the decimal text of the `sid`. The query is lowered but
   * not trimmed.
   */
  predicate Matches(s: Student, query: string)
  {
    var q := Lower(query);
    Includes(Lower(s.firstname), q) || Includes(Lower(s.lastname), q) || Includes(IntToDecimal(s.sid), q)
  }

  /** Whether a student is listed for a query: a blank query lists everyone. */
  predicate Shown(s: Student, query: string)
  {
    IsBlank(query) || Matches(s, query)
  }

  /** `students.filter(Matches)`. */
  function Select(students: seq<Student>, query: string): (r: seq<Student>)
    ensures |r| <= |students|
  {
    if students == [] then []
    else (if Matches(students[0], query) then [students[0]] else []) + Select(students[1..], query)
  }

  /** The filtered view for a search text. */
  function Filter(students: seq<Student>, query: string): seq<Student>
  {
    if IsBlank(query) then students else Select(students, query)
  }

  /** `a` is `b` with some elements left out, the rest kept in order. */
  predicate IsSubsequence<T(==)>(a: seq<T>, b: seq<T>)
    decreases |b|
  {
    a == [] || (b != [] && ((a[0] == b[0] && IsSubsequence(a[1..], b[1..])) || IsSubsequence(a, b[1..])))
  }

  /** A blank query shows the whole list. */
  lemma FilterBlank(students: seq<Student>, query: string)
    requires AllWhitespace(query)
    ensures Filter(students, query) == students
  {
    BlankIff(query);
  }

  /** The filter keeps every occurrence of a matching student and none of any other. */
  lemma {:induction false} SelectCount(students: seq<Student>, query: string, x: Student)
    ensures multiset(Select(students, query))[x] == if Matches(x, query) then multiset(students)[x] else 0
  {
    if students != [] {
      var h, tail := students[0], students[1..];
      SelectCount(tail, query, x);
      var head := if Matches(h, query) then [h] else [];
      assert Select(students, query) == head + Select(tail, query);
      assert multiset(students) == multiset([h]) + multiset(tail) by {
        assert students == [h] + tail;
      }
    }
  }

  /** The filter keeps the students it keeps in their original order. */
  lemma {:induction false} SelectSubsequence(students: seq<Student>, query: string)
    ensures IsSubsequence(Select(students, query), students)
    decreases |students|
  {
    if students != [] {
      SelectSubsequence(students[1..], query);
      var r := Select(students, query);
      if Matches(students[0], query) {
        assert r[0] == students[0] && r[1..] == Select(students[1..], query);
      } else {
        assert r == Select(students[1..], query);
      }
    }
  }

  /**
   * The filtered view, characterised without reference to how it is computed:
   * it is an order-preserving subsequence of the list, holding each listed
   * student as often as the list does and no other student.
   */
  lemma FilterSpec(students: seq<Student>, query: string, x: Student)
    ensures IsSubsequence(Filter(students, query), students)
    ensures multiset(Filter(students, query))[x] == if Shown(x, query) then multiset(students)[x] else 0
    ensures x in Filter(students, query) <==> x in students && Shown(x, query)
  {
    if IsBlank(query) {
      SubsequenceReflexive(students);
    } else {
      SelectSubsequence(students, query);
      SelectCount(students, query, x);
    }
  }

  lemma {:induction false} SubsequenceReflexive<T>(s: seq<T>)
    ensures IsSubsequence(s, s)
    decreases |s|
  {
    if s != [] {
      SubsequenceReflexive(s[1..]);
    }
  }

  /** Filtering a list with one more student at the end filters the prefix and then that student. */
  lemma {:induction false} SelectAppend(students: seq<Student>, query: string, x: Student)
    ensures Select(students + [x], query) == Select(students, query) + (if Matches(x, query) then [x] else [])
    decreases |students|
  {
    if students == [] {
      assert [] + [x] == [x];
    } else {
      var xs := students + [x];
      assert xs[0] == students[0];
      assert xs[1..] == students[1..] + [x];
      SelectAppend(students[1..], query, x);
      var head := if Matches(students[0], query) then [students[0]] else [];
      assert Select(xs, query) == head + Select(students[1..] + [x], query);
      assert Select(students, query) == head + Select(students[1..], query);
      var rest, last := Select(students[1..], query), if Matches(x, query) then [x] else [];
      assert head + (rest + last) == (head + rest) + last;
    }
  }

  /**
   * Appending a student to the filtered view, as the add handler does, agrees
   * with filtering the extended list exactly when the new student is shown.
   */
  lemma AppendAgreesWithFilter(students: seq<Student>, query: string, x: Student)
    ensures Filter(students, query) + [x] == Filter(students + [x], query) <==> Shown(x, query)
  {
    if !IsBlank(query) {
      SelectAppend(students, query, x);
      if !Matches(x, query) {
        assert |Filter(students, query) + [x]| != |Filter(students + [x], query)|;
      }
    }
  }

  /** Searching for a student's exact `sid` text finds that student. */
  lemma FindsBySid(s: Student)
    ensures Matches(s, IntToDecimal(s.sid))
  {
    LowerDecimal(s.sid);
    IncludesEmptyAndSelf(IntToDecimal(s.sid));
  }

  /** Searching for a student's first name, in any ASCII capitalisation, finds that student. */
  lemma FindsByFirstName(s: Student, query: string)
    requires Lower(query) == Lower(s.firstname)
    ensures Matches(s, query)
  {
    IncludesEmptyAndSelf(Lower(s.firstname));
  }

  /** `[...students, x]`: the list grows by `x` at the end, the rest unchanged and in order. */
  function Append(students: seq<Student>, x: Student): (r: seq<Student>)
    ensures |r| == |students| + 1
    ensures r[..|students|] == students && r[|students|] == x
  {
    students + [x]
  }

  /** The identity keys of a list, in order. */
  function Sids(students: seq<Student>): (r: seq<int>)
    ensures |r| == |students|
    ensures forall i :: 0 <= i < |students| ==> r[i] == students[i].sid
  {
    seq(|students|, i requires 0 <= i < |students| => students[i].sid)
  }

  /** No two rows share an identity key. */
  predicate UniqueSids(students: seq<Student>)
  {
    forall i, j :: 0 <= i < j < |students| ==> students[i].sid != students[j].sid
  }

  /** Appending a student whose `sid` is new keeps the keys unique, and it then appears exactly once. */
  lemma AppendNewSid(students: seq<Student>, x: Student)
    requires UniqueSids(students)
    requires x.sid !in Sids(students)
    ensures UniqueSids(Append(students, x))
    ensures multiset(Append(students, x))[x] == 1
  {
    var r := Append(students, x);
    assert forall i :: 0 <= i < |students| ==> r[i] == students[i] && r[i].sid != x.sid by {
      forall i | 0 <= i < |students| ensures r[i] == students[i] && r[i].sid != x.sid {
        assert Sids(students)[i] == students[i].sid;
      }
    }
    assert x !in students;
    assert r == students + [x];
  }

  /** `students.map(s => s.sid === u.sid ? u : s)`. */
  function ReplaceBySid(students: seq<Student>, u: Student): (r: seq<Student>)
  {
    seq(|students|, i requires 0 <= i < |students| => if students[i].sid == u.sid then u else students[i])
  }

  /**
   * Replacing by `sid` keeps the length and the keys in place, puts `u` in every
   * row with its key and leaves every other row as it was.
   */
  lemma ReplaceBySidSpec(students: seq<Student>, u: Student)
    ensures |ReplaceBySid(students, u)| == |students|
    ensures Sids(ReplaceBySid(students, u)) == Sids(students)
    ensures forall i :: 0 <= i < |students| && students[i].sid == u.sid ==> ReplaceBySid(students, u)[i] == u
    ensures forall i :: 0 <= i < |students| && students[i].sid != u.sid ==> ReplaceBySid(students, u)[i] == students[i]
    ensures u in ReplaceBySid(students, u) <==> u.sid in Sids(students)
  {
    var r := ReplaceBySid(students, u);
    if u.sid in Sids(students) {
      var i :| 0 <= i < |students| && Sids(students)[i] == u.sid;
      assert r[i] == u;
    }
    if u in r {
      var i :| 0 <= i < |r| && r[i] == u;
      assert Sids(students)[i] == u.sid;
    }
  }

  /** With no row carrying the updated key, the list is unchanged. */
  lemma ReplaceWithoutMatch(students: seq<Student>, u: Student)
    requires u.sid !in Sids(students)
    ensures ReplaceBySid(students, u) == students
  {
    forall i | 0 <= i < |students| ensures students[i].sid != u.sid {
      assert Sids(students)[i] == students[i].sid;
    }
  }

  /** Replacing never creates a duplicate key: unique keys stay unique. */
  lemma ReplaceKeepsUniqueSids(students: seq<Student>, u: Student)
    requires UniqueSids(students)
    ensures UniqueSids(ReplaceBySid(students, u))
  {
    ReplaceBySidSpec(students, u);
    var r := ReplaceBySid(students, u);
    forall i, j | 0 <= i < j < |r| ensures r[i].sid != r[j].sid {
      assert Sids(r)[i] == Sids(students)[i] && Sids(r)[j] == Sids(students)[j];
    }
  }

  /** Applying the same update twice is applying it once. */
  lemma ReplaceIdempotent(students: seq<Student>, u: Student)
    ensures ReplaceBySid(ReplaceBySid(students, u), u) == ReplaceBySid(students, u)
  {
  }

  /** The update map works row by row, so it distributes over concatenation. */
  lemma ReplaceConcat(a: seq<Student>, b: seq<Student>, u: Student)
    ensures ReplaceBySid(a + b, u) == ReplaceBySid(a, u) + ReplaceBySid(b, u)
  {
  }

  /** The first row of an updated list is the updated first row, and the rest is the updated rest. */
  lemma ReplaceCons(students: seq<Student>, u: Student)
    requires students != []
    ensures ReplaceBySid(students, u)[0] == (if students[0].sid == u.sid then u else students[0])
    ensures ReplaceBySid(students, u)[1..] == ReplaceBySid(students[1..], u)
  {
  }

  /**
   * Replacing in the matching rows agrees with selecting from the updated list
   * whenever the update does not change whether a row with that key matches.
   */
  lemma {:induction false} SelectReplace(students: seq<Student>, query: string, u: Student)
    requires forall i :: 0 <= i < |students| && students[i].sid == u.sid ==>
               (Matches(students[i], query) <==> Matches(u, query))
    ensures ReplaceBySid(Select(students, query), u) == Select(ReplaceBySid(students, u), query)
    decreases |students|
  {
    if students != [] {
      var h, tail := students[0], students[1..];
      assert forall i :: 0 <= i < |tail| ==> tail[i] == students[i + 1];
      SelectReplace(tail, query, u);
      var h' := if h.sid == u.sid then u else h;
      var head := if Matches(h, query) then [h] else [];
      var head' := if Matches(h', query) then [h'] else [];
      assert Matches(h, query) == Matches(h', query);
      assert ReplaceBySid(head, u) == head';
      assert Select(students, query) == head + Select(tail, query);
      ReplaceConcat(head, Select(tail, query), u);
      var r := ReplaceBySid(students, u);
      ReplaceCons(students, u);
      assert Select(r, query) == head' + Select(ReplaceBySid(tail, u), query);
    }
  }

  /**
   * Replacing in the filtered view, as the update handler does, agrees with
   * filtering the updated list whenever the update does not change whether a
   * row with that key is shown.
   */
  lemma ReplaceAgreesWithFilter(students: seq<Student>, query: string, u: Student)
    requires forall i :: 0 <= i < |students| && students[i].sid == u.sid ==>
               (Matches(students[i], query) <==> Matches(u, query))
    ensures ReplaceBySid(Filter(students, query), u) == Filter(ReplaceBySid(students, u), query)
  {
    if !IsBlank(query) {
      SelectReplace(students, query, u);
    }
  }
}
