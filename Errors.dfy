/**
 * The ways an evaluation, a pop or a peek can fail. Each stands for the Java
 * exception thrown at that point; the program's callers never tell them apart.
 */
module Errors {

  datatype Error =
    | InvalidCharacter(c: char)       // IllegalArgumentException of the scan
    | EmptyStack                      // EmptyStackException, or the IllegalStateException of pop/peek
    | DivisionByZero                  // ArithmeticException of applyOperator
    | MalformedNumber(text: string)   // NumberFormatException of Double.parseDouble
}
