/** The Authorization repository (`AuthPostgres`): teachers, students and the code-word pool.
    Connection and transaction failures are not modelled; the errors below are the ones the
    queries produce from the data. */
module AuthPostgres {
  import opened Wrappers
  import opened Models
  import opened Tables

  const ErrDuplicateEmail: string := "the user with this email is already registered"
  const ErrWrongEmail: string := "wrong email or password"
  const ErrWrongCode: string := "wrong codeword or password"
  const ErrNoUser: string := "user does not exist"
  const ErrPasswordsMismatch: string := "passwords don't match"

  predicate EmailTaken(teachers: map<int, Teacher>, email: string) {
    exists k | k in teachers :: teachers[k].email == email
  }

  /** INSERT INTO teachers (name, email, password): the row starts inactive. Any failed insert is
      reported as a duplicate email; the only one the schema can raise here is the unique
      email. The serial counter advances even when the insert fails, as a Postgres sequence does. */
  method CreateTeacher(db: Db, teacher: Teacher) returns (r: Result<int>)
    requires db.Valid()
    modifies db`teachers, db`teacherSeq
    ensures db.Valid()
    ensures db.teacherSeq == old(db.teacherSeq) + 1
    ensures r.Err? <==> EmailTaken(old(db.teachers), teacher.email)
    ensures r.Err? ==> r.error == ErrDuplicateEmail && db.teachers == old(db.teachers)
    ensures r.Ok? ==>
      && r.value == old(db.teacherSeq) && r.value !in old(db.teachers)
      && db.teachers == old(db.teachers)[r.value := Teacher(r.value, teacher.name, teacher.email, teacher.password, false)]
  {
    var id := db.teacherSeq;
    db.teacherSeq := db.teacherSeq + 1;
    if EmailTaken(db.teachers, teacher.email) {
      r := Err(ErrDuplicateEmail);
    } else {
      db.teachers := db.teachers[id := Teacher(id, teacher.name, teacher.email, teacher.password, false)];
      r := Ok(id);
    }
  }

  /** INSERT INTO students, then INSERT INTO teacher_student linking the new student to the teacher. */
  method CreateStudent(db: Db, teacherId: int, student: Student) returns (r: Result<int>)
    requires db.Valid()
    modifies db`students, db`studentSeq, db`teacherStudents
    ensures db.Valid()
    ensures r.Ok? && r.value == old(db.studentSeq) && r.value !in old(db.students)
    ensures db.studentSeq == old(db.studentSeq) + 1
    ensures db.students == old(db.students)[r.value := student.(id := r.value)]
    ensures db.teacherStudents == old(db.teacherStudents) + [Link(teacherId, r.value)]
    ensures old(db.LinksUnique()) ==> db.LinksUnique()
    ensures old(db.CodesIssued()) && CodeFree(old(db.students), db.codeWords, student.code) ==> db.CodesIssued()
  {
    var id := db.studentSeq;
    db.students := db.students[id := student.(id := id)];
    db.studentSeq := db.studentSeq + 1;
    db.teacherStudents := db.teacherStudents + [Link(teacherId, id)];
    r := Ok(id);
  }

  /** The word was handed out by the pool and no student holds it yet. */
  ghost predicate CodeFree(students: map<int, Student>, codeWords: map<string, CodeWord>, code: string) {
    && code in codeWords && codeWords[code].isUsed
    && forall k | k in students :: students[k].code != code
  }

  predicate HasFreeWord(codeWords: map<string, CodeWord>) {
    exists w | w in codeWords :: !codeWords[w].isUsed
  }

  /** SELECT word, password FROM code_words WHERE NOT is_used LIMIT 1 FOR UPDATE, then mark that
      word used. Which free word comes first is up to the database. */
  method GetCodeWord(db: Db) returns (r: Result<(string, string)>)
    modifies db`codeWords
    ensures r.Err? <==> !HasFreeWord(old(db.codeWords))
    ensures r.Err? ==> r.error == ErrNoRows && db.codeWords == old(db.codeWords)
    ensures r.Ok? ==>
      var (word, password) := r.value;
      && word in old(db.codeWords) && !old(db.codeWords)[word].isUsed
      && password == old(db.codeWords)[word].password
      && db.codeWords == old(db.codeWords)[word := CodeWord(password, true)]
    ensures old(db.CodesIssued()) ==> db.CodesIssued()
    ensures old(db.CodesIssued()) && r.Ok? ==> CodeFree(db.students, db.codeWords, r.value.0)
  {
    if HasFreeWord(db.codeWords) {
      var word :| word in db.codeWords && !db.codeWords[word].isUsed;
      var password := db.codeWords[word].password;
      db.codeWords := db.codeWords[word := CodeWord(password, true)];
      r := Ok((word, password));
    } else {
      r := Err(ErrNoRows);
    }
  }

  predicate TeacherLogin(t: Teacher, email: string, password: string) {
    t.email == email && t.password == password && t.isActive
  }

  /** SELECT * FROM teachers WHERE email=$1 AND password=$2 AND is_active; every failure reads
      the same. */
  method GetTeacher(db: Db, email: string, password: string) returns (r: Result<Teacher>)
    ensures r.Ok? <==> exists k | k in db.teachers :: TeacherLogin(db.teachers[k], email, password)
    ensures r.Ok? ==> r.value in db.teachers.Values && TeacherLogin(r.value, email, password)
    ensures r.Err? ==> r.error == ErrWrongEmail
  {
    if k :| k in db.teachers && TeacherLogin(db.teachers[k], email, password) {
      r := Ok(db.teachers[k]);
    } else {
      r := Err(ErrWrongEmail);
    }
  }

  /** SELECT * FROM teachers WHERE teacher_id=$1; the active flag is not consulted. */
  function GetTeacherById(db: Db, teacherId: int): (r: Outcome)
    reads db
    ensures r.Pass? <==> teacherId in db.teachers
    ensures r.Fail? ==> r.error == ErrNoUser
  {
    if teacherId in db.teachers then Pass else Fail(ErrNoUser)
  }

  /** SELECT * FROM teachers WHERE email=$1 AND is_active. */
  method GetTeacherByEmail(db: Db, email: string) returns (r: Result<Teacher>)
    ensures r.Ok? <==> exists k | k in db.teachers :: db.teachers[k].email == email && db.teachers[k].isActive
    ensures r.Ok? ==> r.value in db.teachers.Values && r.value.email == email && r.value.isActive
    ensures r.Err? ==> r.error == ErrNoRows
  {
    if k :| k in db.teachers && db.teachers[k].email == email && db.teachers[k].isActive {
      r := Ok(db.teachers[k]);
    } else {
      r := Err(ErrNoRows);
    }
  }

  /** SELECT * FROM students WHERE code=$1 AND password=$2. */
  method GetStudent(db: Db, codeWord: string, password: string) returns (r: Result<Student>)
    ensures r.Ok? <==> exists k | k in db.students :: db.students[k].code == codeWord && db.students[k].password == password
    ensures r.Ok? ==> r.value in db.students.Values && r.value.code == codeWord && r.value.password == password
    ensures r.Err? ==> r.error == ErrWrongCode
  {
    if k :| k in db.students && db.students[k].code == codeWord && db.students[k].password == password {
      r := Ok(db.students[k]);
    } else {
      r := Err(ErrWrongCode);
    }
  }

  /** SELECT * FROM students WHERE student_id=$1. */
  function GetStudentById(db: Db, studentId: int): (r: Outcome)
    reads db
    ensures r.Pass? <==> studentId in db.students
    ensures r.Fail? ==> r.error == ErrNoUser
  {
    if studentId in db.students then Pass else Fail(ErrNoUser)
  }

  /** UPDATE teachers SET is_active=TRUE WHERE teacher_id=$1; no matching row is not an error. */
  method ActivateUser(db: Db, userId: int) returns (r: Outcome)
    requires db.Valid()
    modifies db`teachers
    ensures db.Valid()
    ensures r == Pass
    ensures db.teachers.Keys == old(db.teachers).Keys
    ensures userId in db.teachers ==> db.teachers[userId] == old(db.teachers)[userId].(isActive := true)
    ensures forall k | k in db.teachers && k != userId :: db.teachers[k] == old(db.teachers)[k]
    ensures userId in old(db.teachers) && old(db.teachers)[userId].isActive ==> db.teachers == old(db.teachers)
  {
    if userId in db.teachers {
      db.teachers := db.teachers[userId := db.teachers[userId].(isActive := true)];
    }
    r := Pass;
  }

  /** Read the stored hash, compare it with `oldPassword`, and only on a match store `newPassword`. */
  method UpdateStudentPassword(db: Db, studentId: int, oldPassword: string, newPassword: string) returns (r: Outcome)
    requires db.Valid()
    modifies db`students
    ensures db.Valid()
    ensures studentId !in old(db.students) ==> r == Fail(ErrNoRows)
    ensures studentId in old(db.students) && old(db.students)[studentId].password != oldPassword ==>
      r == Fail(ErrPasswordsMismatch)
    ensures r.Fail? ==> db.students == old(db.students)
    ensures r.Pass? ==>
      && studentId in old(db.students) && old(db.students)[studentId].password == oldPassword
      && db.students == old(db.students)[studentId := old(db.students)[studentId].(password := newPassword)]
  {
    if studentId !in db.students {
      r := Fail(ErrNoRows);
    } else if db.students[studentId].password != oldPassword {
      r := Fail(ErrPasswordsMismatch);
    } else {
      db.students := db.students[studentId := db.students[studentId].(password := newPassword)];
      r := Pass;
    }
  }

  /** UPDATE teachers SET password=$1 WHERE teacher_id=$2, with no check of the old password. */
  method UpdateTeacherPassword(db: Db, teacherId: int, newPassword: string) returns (r: Outcome)
    requires db.Valid()
    modifies db`teachers
    ensures db.Valid()
    ensures r == Pass
    ensures db.teachers == if teacherId in old(db.teachers)
                           then old(db.teachers)[teacherId := old(db.teachers)[teacherId].(password := newPassword)]
                           else old(db.teachers)
  {
    if teacherId in db.teachers {
      db.teachers := db.teachers[teacherId := db.teachers[teacherId].(password := newPassword)];
    }
    r := Pass;
  }
}
