/** Outcomes of the modelled operations: a value, or the error that ends the computation.
    The Python code raises (KeyError, IndexError, ZeroDivisionError, its own Exception) or logs
    and calls exit(1); all of these terminate the job, so each becomes an `Err` value here. */
module Results {

  datatype Error =
    | KeyError(key: string)            // lookup of a missing key in a constant table
    | UnknownElement(element: string)  // element symbol absent from the atomic-number table (logged, exit(1))
    | IndexError                       // a sequence indexed out of range
    | NeedTwoMonomers                  // "Need at least two monomers"
    | ZeroDivision                     // a real division by zero
    | InconsistentTrainingData         // reference targets and descriptors differ in number (exit(1))
    | EmptyTrainingSet                 // "No molecule in the training set." (exit(1))
    | UnknownMlMethod(name: string)    // "unknown ML method" (exit(1))
    | UnknownKernel(name: string)      // kernel name other than gaussian / laplacian
    | ShapeMismatch                    // numpy/scipy refuse operands of incompatible shapes
    | SingularMatrix                   // the linear solve has no unique solution
    | ModelNotTrained                  // prediction before any alpha was trained or loaded
    | BadFloat(text: string)           // float() of a field that is not a number

  datatype Option<T> = None | Some(value: T)

  datatype Result<T> = Ok(value: T) | Err(error: Error) {
    predicate IsFailure() { Err? }
    function PropagateFailure<U>(): Result<U> requires Err? { Err(error) }
    function Extract(): T requires Ok? { value }
  }

  /** table[key], or KeyError(key) when the key is missing (a Python dict subscript). */
  function Lookup<V>(table: map<string, V>, key: string): (r: Result<V>)
    ensures r.Ok? <==> key in table
    ensures r.Ok? ==> r.value == table[key]
    ensures r.Err? ==> r.error == KeyError(key)
  {
    if key in table then Ok(table[key]) else Err(KeyError(key))
  }

  /** A dict subscript reads nothing but the key's own entry: two tables that agree on the key
      give the same value, or the same KeyError. */
  lemma LookupAgrees<V>(t: map<string, V>, u: map<string, V>, key: string)
    requires key in t <==> key in u
    requires key in t ==> t[key] == u[key]
    ensures Lookup(t, key) == Lookup(u, key)
  {}

  /** Subscripting after d[k] = v: v at k, and the old value or KeyError at every other key. */
  lemma LookupUpdate<V>(t: map<string, V>, k: string, v: V, key: string)
    ensures Lookup(t[k := v], key) == if key == k then Ok(v) else Lookup(t, key)
  {}

  /** The error of a failed result, None for a success. */
  function ErrorOf<T>(r: Result<T>): Option<Error> {
    if r.Err? then Some(r.error) else None
  }
}
