/**
 * Case-insensitive comparisons used by the live detection loop:
 * the class test on a prediction and the make test on an API answer.
 * Only ASCII letters are folded; every other character is its own lower case.
 */
module Text {

  /** Lower case of one character (ASCII letters only). */
  function Lower(c: char): char {
    if 'A' <= c <= 'Z' then (c as int + 32) as char else c
  }

  predicate IsLowerChar(c: char) {
    !('A' <= c <= 'Z')
  }

  /** `String.prototype.toLowerCase`, restricted to ASCII folding. */
  function ToLower(s: string): (r: string)
    ensures |r| == |s|
    ensures forall i :: 0 <= i < |s| ==> r[i] == Lower(s[i])
    ensures forall i :: 0 <= i < |r| ==> IsLowerChar(r[i])
  {
    if s == [] then [] else [Lower(s[0])] + ToLower(s[1..])
  }

  /** `s.toLowerCase() === word`, for a word already in lower case. */
  predicate EqualsIgnoringCase(s: string, word: string) {
    ToLower(s) == word
  }

  /** The equality holds exactly when the lengths agree and every character folds to the word's. */
  lemma EqualsIgnoringCaseCharwise(s: string, word: string)
    ensures EqualsIgnoringCase(s, word) <==>
      |s| == |word| && forall i :: 0 <= i < |s| ==> Lower(s[i]) == word[i]
  {
    if |s| == |word| && forall i :: 0 <= i < |s| ==> Lower(s[i]) == word[i] {
      assert ToLower(s) == word;
    }
  }

  /** The class test of the webcam loop: `car` or `vehicle`, ignoring case, nothing else. */
  predicate IsVehicleClass(className: string) {
    EqualsIgnoringCase(className, "car") || EqualsIgnoringCase(className, "vehicle")
  }

  lemma VehicleClassExamples()
    ensures IsVehicleClass("car") && IsVehicleClass("Car") && IsVehicleClass("VEHICLE")
    ensures !IsVehicleClass("cars") && !IsVehicleClass(" car") && !IsVehicleClass("truck")
  {
    EqualsIgnoringCaseCharwise("Car", "car");
    EqualsIgnoringCaseCharwise("VEHICLE", "vehicle");
  }
}
