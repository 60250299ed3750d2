/** The attendance tracker: a class roster of students, each with an id, a
    name and today's status, edited in place by the tracker's handlers. */
module Attendance {
  import opened Wrappers
  import opened Strings

  datatype Status = Present | Absent | Late

  datatype Student = Student(id: int, name: string, status: Status)

  /** The roster the tracker starts with. */
  function InitialRoster(): (r: seq<Student>)
    ensures |r| == 10
  {
    [
      Student(1, "Alice Johnson", Present),
      Student(2, "Bob Smith", Present),
      Student(3, "Charlie Brown", Absent),
      Student(4, "Diana Prince", Present),
      Student(5, "Ethan Hunt", Late),
      Student(6, "Fiona Apple", Present),
      Student(7, "George Martin", Present),
      Student(8, "Hannah Montana", Present),
      Student(9, "Ian Malcolm", Absent),
      Student(10, "Julia Roberts", Present)
    ]
  }

  /** No two students share an id. */
  predicate DistinctIds(ss: seq<Student>) {
    forall i, j :: 0 <= i < j < |ss| ==> ss[i].id != ss[j].id
  }

  lemma InitialRosterDistinct()
    ensures DistinctIds(InitialRoster())
  {
    var r := InitialRoster();
    forall i, j | 0 <= i < j < |r|
      ensures r[i].id != r[j].id
    {
      assert forall k :: 0 <= k < |r| ==> r[k].id == k + 1;
    }
  }

  /** `Math.max(...ids) + 1`, or 1 for an empty roster: one more than the
      largest id in use. */
  function NextId(ss: seq<Student>): (n: int)
    ensures forall s :: s in ss ==> s.id < n
    ensures ss == [] ==> n == 1
    ensures ss != [] ==> exists s :: s in ss && n == s.id + 1
    decreases |ss|
  {
    if ss == [] then 1
    else if |ss| == 1 then ss[0].id + 1
    else
      var rest := NextId(ss[1..]);
      assert forall s :: s in ss ==> s == ss[0] || s in ss[1..];
      if ss[0].id + 1 >= rest then ss[0].id + 1 else rest
  }

  /** `students.map(s => s.id === id ? { ...s, name } : s)`. */
  function Renamed(ss: seq<Student>, id: int, name: string): (r: seq<Student>)
    ensures |r| == |ss|
    ensures forall i :: 0 <= i < |r| ==> r[i].id == ss[i].id && r[i].status == ss[i].status
    ensures forall i :: 0 <= i < |r| ==> r[i].name == if ss[i].id == id then name else ss[i].name
    decreases |ss|
  {
    if ss == [] then []
    else [if ss[0].id == id then ss[0].(name := name) else ss[0]] + Renamed(ss[1..], id, name)
  }

  /** The same map, setting the status instead of the name. */
  function WithStatus(ss: seq<Student>, id: int, st: Status): (r: seq<Student>)
    ensures |r| == |ss|
    ensures forall i :: 0 <= i < |r| ==> r[i].id == ss[i].id && r[i].name == ss[i].name
    ensures forall i :: 0 <= i < |r| ==> r[i].status == if ss[i].id == id then st else ss[i].status
    decreases |ss|
  {
    if ss == [] then []
    else [if ss[0].id == id then ss[0].(status := st) else ss[0]] + WithStatus(ss[1..], id, st)
  }

  /** `students.filter(s => s.id !== id)`. */
  function Without(ss: seq<Student>, id: int): (r: seq<Student>)
    ensures |r| <= |ss|
    ensures forall s :: s in r <==> s in ss && s.id != id
    decreases |ss|
  {
    if ss == [] then []
    else
      var rest := Without(ss[1..], id);
      assert forall s :: s in ss <==> s == ss[0] || s in ss[1..];
      if ss[0].id == id then rest else [ss[0]] + rest
  }

  /** Removal keeps the others in their order: filtering a roster split in
      two filters each part. */
  lemma {:induction false} WithoutSplits(a: seq<Student>, b: seq<Student>, id: int)
    ensures Without(a + b, id) == Without(a, id) + Without(b, id)
    decreases |a|
  {
    if a != [] {
      assert (a + b)[1..] == a[1..] + b;
      WithoutSplits(a[1..], b, id);
    } else {
      assert a + b == b;
    }
  }

  /** Removing an id absent from the roster changes nothing. */
  lemma {:induction false} WithoutAbsent(ss: seq<Student>, id: int)
    requires forall s :: s in ss ==> s.id != id
    ensures Without(ss, id) == ss
    decreases |ss|
  {
    if ss != [] {
      assert ss[0] in ss;
      assert forall s :: s in ss[1..] ==> s in ss;
      WithoutAbsent(ss[1..], id);
      assert ss == [ss[0]] + ss[1..];
    }
  }

  /** Removal keeps ids distinct. */
  lemma {:induction false} WithoutDistinct(ss: seq<Student>, id: int)
    requires DistinctIds(ss)
    ensures DistinctIds(Without(ss, id))
    decreases |ss|
  {
    if ss != [] {
      var rest := Without(ss[1..], id);
      WithoutDistinct(ss[1..], id);
      if ss[0].id != id {
        forall t | t in rest
          ensures t.id != ss[0].id
        {
          var j :| 0 <= j < |ss[1..]| && ss[1..][j] == t;
          assert ss[j + 1] == t;
        }
        PrependUnusedId(rest, ss[0]);
      }
    }
  }

  /** A student added with `NextId` keeps the ids distinct. */
  lemma AddKeepsDistinct(ss: seq<Student>, name: string)
    requires DistinctIds(ss)
    ensures DistinctIds([Student(NextId(ss), name, Present)] + ss)
  {
    PrependUnusedId(ss, Student(NextId(ss), name, Present));
  }

  /** Prepending a student whose id is not in use keeps ids distinct. */
  lemma PrependUnusedId(ss: seq<Student>, s: Student)
    requires DistinctIds(ss)
    requires forall t :: t in ss ==> t.id != s.id
    ensures DistinctIds([s] + ss)
  {
    var r := [s] + ss;
    forall i, j | 0 <= i < j < |r|
      ensures r[i].id != r[j].id
    {
      if i == 0 {
        assert r[j] == ss[j - 1] && r[j] in ss;
      } else {
        assert r[i] == ss[i - 1] && r[j] == ss[j - 1];
      }
    }
  }

  /** The number of students with status `st`. */
  function CountStatus(ss: seq<Student>, st: Status): (n: nat)
    ensures n <= |ss|
    decreases |ss|
  {
    if ss == [] then 0
    else (if ss[0].status == st then 1 else 0) + CountStatus(ss[1..], st)
  }

  datatype Stats = Stats(present: nat, absent: nat, late: nat)

  /** `getStats()`: every student is counted exactly once. */
  function GetStats(ss: seq<Student>): (s: Stats)
    ensures s.present + s.absent + s.late == |ss|
    ensures s.present == CountStatus(ss, Present) && s.absent == CountStatus(ss, Absent) && s.late == CountStatus(ss, Late)
  {
    StatusesPartition(ss);
    Stats(CountStatus(ss, Present), CountStatus(ss, Absent), CountStatus(ss, Late))
  }

  lemma {:induction false} StatusesPartition(ss: seq<Student>)
    ensures CountStatus(ss, Present) + CountStatus(ss, Absent) + CountStatus(ss, Late) == |ss|
    decreases |ss|
  {
    if ss != [] {
      StatusesPartition(ss[1..]);
    }
  }

  /** Renaming leaves every status count as it was. */
  lemma {:induction false} RenamedKeepsStats(ss: seq<Student>, id: int, name: string, st: Status)
    ensures CountStatus(Renamed(ss, id, name), st) == CountStatus(ss, st)
    decreases |ss|
  {
    if ss != [] {
      RenamedKeepsStats(ss[1..], id, name, st);
    }
  }

  /** Setting the status of a student whose current status is `from` moves
      exactly one student from `from` to `to`. */
  lemma {:induction false} WithStatusMovesOne(ss: seq<Student>, id: int, to: Status, k: nat)
    requires DistinctIds(ss) && k < |ss| && ss[k].id == id
    ensures var from := ss[k].status;
      CountStatus(WithStatus(ss, id, to), to) == CountStatus(ss, to) + (if from == to then 0 else 1)
    ensures var from := ss[k].status;
      CountStatus(WithStatus(ss, id, to), from) == CountStatus(ss, from) - (if from == to then 0 else 1)
    decreases |ss|
  {
    DistinctTail(ss);
    if k > 0 {
      assert ss[1..][k - 1] == ss[k];
      WithStatusMovesOne(ss[1..], id, to, k - 1);
      MovesOneLater(ss, id, to, ss[k].status);
    } else {
      WithStatusAbsent(ss[1..], id, to);
      MovesOneHere(ss, id, to);
    }
  }

  /** The step of the above when the student is further down the roster. */
  lemma MovesOneLater(ss: seq<Student>, id: int, to: Status, from: Status)
    requires ss != [] && ss[0].id != id
    requires CountStatus(WithStatus(ss[1..], id, to), to) == CountStatus(ss[1..], to) + (if from == to then 0 else 1)
    requires CountStatus(WithStatus(ss[1..], id, to), from) == CountStatus(ss[1..], from) - (if from == to then 0 else 1)
    ensures CountStatus(WithStatus(ss, id, to), to) == CountStatus(ss, to) + (if from == to then 0 else 1)
    ensures CountStatus(WithStatus(ss, id, to), from) == CountStatus(ss, from) - (if from == to then 0 else 1)
  {
    var w := WithStatus(ss, id, to);
    assert w[0].status == ss[0].status;
    assert w[1..] == WithStatus(ss[1..], id, to);
  }

  /** The step of the above when the student is the first of the roster. */
  lemma MovesOneHere(ss: seq<Student>, id: int, to: Status)
    requires ss != [] && ss[0].id == id && WithStatus(ss[1..], id, to) == ss[1..]
    ensures var from := ss[0].status;
      CountStatus(WithStatus(ss, id, to), to) == CountStatus(ss, to) + (if from == to then 0 else 1)
    ensures var from := ss[0].status;
      CountStatus(WithStatus(ss, id, to), from) == CountStatus(ss, from) - (if from == to then 0 else 1)
  {
    var w := WithStatus(ss, id, to);
    assert w[0].status == to;
    assert w[1..] == ss[1..];
  }

  /** The rest of a roster with distinct ids has distinct ids, none of them
      the first student's. */
  lemma DistinctTail(ss: seq<Student>)
    requires DistinctIds(ss) && ss != []
    ensures DistinctIds(ss[1..])
    ensures forall i :: 0 <= i < |ss[1..]| ==> ss[1..][i].id != ss[0].id
  {
    forall i, j | 0 <= i < j < |ss[1..]|
      ensures ss[1..][i].id != ss[1..][j].id
    {
      assert ss[1..][i] == ss[i + 1] && ss[1..][j] == ss[j + 1];
    }
    forall i | 0 <= i < |ss[1..]|
      ensures ss[1..][i].id != ss[0].id
    {
      assert ss[1..][i] == ss[i + 1];
    }
  }

  /** Setting the status of an id no student has changes nothing. */
  lemma {:induction false} WithStatusAbsent(ss: seq<Student>, id: int, st: Status)
    ensures (forall i :: 0 <= i < |ss| ==> ss[i].id != id) ==> WithStatus(ss, id, st) == ss
    decreases |ss|
  {
    if ss != [] {
      WithStatusAbsent(ss[1..], id, st);
    }
  }

  /** The ids of a roster after a rename or a status change are the ids before. */
  lemma SameIdsKeepDistinct(ss: seq<Student>, r: seq<Student>)
    requires DistinctIds(ss) && |r| == |ss|
    requires forall i :: 0 <= i < |r| ==> r[i].id == ss[i].id
    ensures DistinctIds(r)
  {
    forall i, j | 0 <= i < j < |r|
      ensures r[i].id != r[j].id
    {
      assert ss[i].id != ss[j].id;
    }
  }

  /** The tracker's state: the roster, the inline rename editor and the
      add-student dialog. */
  class Tracker {
    var students: seq<Student>
    var editingId: Option<int>
    var editName: string
    var isAdding: bool
    var newStudentName: string

    /** Ids stay pairwise distinct through every handler. */
    predicate Valid()
      reads this
    {
      DistinctIds(students)
    }

    constructor()
      ensures Valid()
      ensures students == InitialRoster() && editingId == None && editName == ""
      ensures !isAdding && newStudentName == ""
    {
      students := InitialRoster();
      editingId := None;
      editName := "";
      isAdding := false;
      newStudentName := "";
      InitialRosterDistinct();
    }

    /** `startEditing(student)`: opens the editor on that student's name. */
    method StartEditing(student: Student)
      modifies this
      ensures editingId == Some(student.id) && editName == student.name
      ensures students == old(students) && isAdding == old(isAdding) && newStudentName == old(newStudentName)
    {
      editingId := Some(student.id);
      editName := student.name;
    }

    /** Typing into the rename editor. */
    method SetEditName(name: string)
      modifies this
      ensures editName == name
      ensures students == old(students) && editingId == old(editingId)
      ensures isAdding == old(isAdding) && newStudentName == old(newStudentName)
    {
      editName := name;
    }

    /** `saveEdit()`: with an open editor and a name that is not blank,
        renames the students with the edited id to the trimmed name and
        closes the editor; otherwise nothing changes. */
    method SaveEdit()
      requires Valid()
      modifies this
      ensures Valid()
      ensures isAdding == old(isAdding) && newStudentName == old(newStudentName)
      ensures old(editingId).Some? && Trim(old(editName)) != "" ==>
        && students == Renamed(old(students), old(editingId).value, Trim(old(editName)))
        && editingId == None && editName == ""
      ensures !(old(editingId).Some? && Trim(old(editName)) != "") ==>
        students == old(students) && editingId == old(editingId) && editName == old(editName)
    {
      if editingId.Some? && Trim(editName) != "" {
        var r := Renamed(students, editingId.value, Trim(editName));
        SameIdsKeepDistinct(students, r);
        students := r;
        editingId := None;
        editName := "";
      }
    }

    /** `cancelEdit()`: closes the editor, roster untouched. */
    method CancelEdit()
      modifies this
      ensures editingId == None && editName == ""
      ensures students == old(students) && isAdding == old(isAdding) && newStudentName == old(newStudentName)
    {
      editingId := None;
      editName := "";
    }

    /** The "Add Student" button opens the dialog; its "Cancel" closes it and
        keeps whatever was typed. */
    method SetAdding(open: bool)
      modifies this
      ensures isAdding == open
      ensures students == old(students) && newStudentName == old(newStudentName)
      ensures editingId == old(editingId) && editName == old(editName)
    {
      isAdding := open;
    }

    /** Typing into the add-student dialog. */
    method SetNewStudentName(name: string)
      modifies this
      ensures newStudentName == name
      ensures students == old(students) && isAdding == old(isAdding)
      ensures editingId == old(editingId) && editName == old(editName)
    {
      newStudentName := name;
    }

    /** The add button's `disabled` attribute: the same test `addStudent`
        makes, so an enabled button always adds (the contract of
        `AddStudent` is stated in its terms). */
    predicate AddDisabled()
      reads this
    {
      Trim(newStudentName) == ""
    }

    /** `addStudent()`: a name that is blank after trimming changes nothing;
        otherwise a present student with a fresh id and the trimmed name goes
        on top of the unchanged roster and the dialog closes and clears. */
    method AddStudent()
      requires Valid()
      modifies this
      ensures Valid()
      ensures editingId == old(editingId) && editName == old(editName)
      ensures old(AddDisabled()) ==>
        students == old(students) && isAdding == old(isAdding) && newStudentName == old(newStudentName)
      ensures !old(AddDisabled()) ==>
        && students == [Student(NextId(old(students)), Trim(old(newStudentName)), Present)] + old(students)
        && newStudentName == "" && !isAdding
    {
      var name := Trim(newStudentName);
      if name != "" {
        var roster := [Student(NextId(students), name, Present)] + students;
        AddKeepsDistinct(students, name);
        students, newStudentName, isAdding := roster, "", false;
      }
    }

    /** `removeStudent(id)`, with the user's answer to the confirmation
        dialog as `confirmed`. */
    method RemoveStudent(id: int, confirmed: bool)
      requires Valid()
      modifies this
      ensures Valid()
      ensures students == if confirmed then Without(old(students), id) else old(students)
      ensures editingId == old(editingId) && editName == old(editName)
      ensures isAdding == old(isAdding) && newStudentName == old(newStudentName)
    {
      if confirmed {
        WithoutDistinct(students, id);
        students := Without(students, id);
      }
    }

    /** The present/absent/late buttons of one student's row. */
    method SetStatus(id: int, st: Status)
      requires Valid()
      modifies this
      ensures Valid()
      ensures students == WithStatus(old(students), id, st)
      ensures editingId == old(editingId) && editName == old(editName)
      ensures isAdding == old(isAdding) && newStudentName == old(newStudentName)
    {
      var r := WithStatus(students, id, st);
      SameIdsKeepDistinct(students, r);
      students := r;
    }
  }
}
