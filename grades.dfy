/** The five letter grades and the threshold ladder that assigns them
    (grade_to_letter in class_garden.py). */
module Grades {

  datatype Grade = A | B | C | D | F

  /** The key of the grade in the icon and label tables. */
  function Letter(g: Grade): string {
    match g
    case A => "A"
    case B => "B"
    case C => "C"
    case D => "D"
    case F => "F"
  }

  /** The legend text shown beside each grade's icon. */
  function Label(g: Grade): string {
    match g
    case A => "Thriving \U{1F33F}"
    case B => "Healthy \U{1F331}"
    case C => "Drooping \U{1F343}"
    case D => "Wilted \U{1F342}"
    case F => "Withered \U{1F940}"
  }

  /** Quality order: a higher rank is a better grade. */
  function Rank(g: Grade): nat {
    match g
    case A => 4
    case B => 3
    case C => 2
    case D => 1
    case F => 0
  }

  /** The inclusive lower bound of each passing grade. */
  function MinScore(g: Grade): real
    requires g != F
  {
    match g
    case A => 90.0
    case B => 80.0
    case C => 70.0
    case D => 60.0
  }

  /** The score is good enough for the grade; every score is good enough for F. */
  predicate Meets(score: real, g: Grade) {
    g == F || score >= MinScore(g)
  }

  /** The ladder: the best grade whose threshold the score reaches. */
  function GradeToLetter(score: real): (g: Grade)
    ensures Meets(score, g)
    ensures forall better: Grade :: Rank(better) > Rank(g) ==> !Meets(score, better)
  {
    if score >= 90.0 then A
    else if score >= 80.0 then B
    else if score >= 70.0 then C
    else if score >= 60.0 then D
    else F
  }

  /** Each grade covers exactly one band of scores, closed below and open above. */
  lemma GradeBands(score: real)
    ensures GradeToLetter(score) == A <==> 90.0 <= score
    ensures GradeToLetter(score) == B <==> 80.0 <= score < 90.0
    ensures GradeToLetter(score) == C <==> 70.0 <= score < 80.0
    ensures GradeToLetter(score) == D <==> 60.0 <= score < 70.0
    ensures GradeToLetter(score) == F <==> score < 60.0
  {
  }

  /** The classifier always answers with one of the five table keys. */
  lemma LetterIsOneOfFive(score: real)
    ensures Letter(GradeToLetter(score)) in ["A", "B", "C", "D", "F"]
  {
  }

  /** A higher score never earns a worse grade. */
  lemma GradeMonotone(s1: real, s2: real)
    requires s1 <= s2
    ensures Rank(GradeToLetter(s1)) <= Rank(GradeToLetter(s2))
  {
  }

  /** Boundary scores: no clamping above 100 or below 0. */
  lemma GradeExamples()
    ensures GradeToLetter(95.0) == A && GradeToLetter(90.0) == A && GradeToLetter(150.0) == A
    ensures GradeToLetter(89.999) == B && GradeToLetter(89.0) == B && GradeToLetter(80.0) == B
    ensures GradeToLetter(70.0) == C && GradeToLetter(60.0) == D
    ensures GradeToLetter(59.9) == F && GradeToLetter(59.0) == F && GradeToLetter(-20.0) == F
  {
  }
}
