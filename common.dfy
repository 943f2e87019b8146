/** Shared vocabulary: Java's null as Option, Java exceptions as a datatype, and the
    outcome of any call that may throw. */
module Common {

  /** A reference that may be null (java.util.Optional, or a nullable field). */
  datatype Option<+T> = None | Some(value: T)

  /** The exceptions the modelled code throws, wraps or returns. */
  datatype Exception =
    | NullPointer(message: string)           // java.lang.NullPointerException from requireNonNull
    | IllegalArgument(message: string)       // java.lang.IllegalArgumentException
    | IllegalState(message: string)          // java.lang.IllegalStateException
    | OpenData(message: string)              // javax.management.openmbean.OpenDataException
    | KeyAlreadyExists(message: string)      // javax.management.openmbean.KeyAlreadyExistsException
    | AttributeNotFound(message: string)     // javax.management.AttributeNotFoundException
    | NoSuchMethod(message: string)          // java.lang.NoSuchMethodException
    | InvocationTarget(target: Exception)    // java.lang.reflect.InvocationTargetException
    | IllegalAccess(message: string)         // java.lang.IllegalAccessException
    | Reflection(cause: Exception)           // javax.management.ReflectionException
    | Runtime(cause: Exception)              // java.lang.RuntimeException wrapping a cause
    | RuntimeOperations(cause: Exception)    // javax.management.RuntimeOperationsException
    | UserFailure(message: string)           // anything thrown by caller-supplied code

  /** The outcome of a Java call: it returns a value or throws. */
  datatype Attempt<+T> = Ok(value: T) | Thrown(exception: Exception)

  /** A java.lang.Class token: what getName() and getTypeName() report. The two differ
      for array classes ("[Ljava.lang.String;" against "java.lang.String[]"). */
  datatype ClassToken = ClassToken(name: string, typeName: string)
}
