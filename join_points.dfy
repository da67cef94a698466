/**
 * Join points: the immutable values a pointcut resolution produces.
 * A join point names one member (by method name) of one target, and says
 * whether the member is a class-level method.
 */
module JoinPoints {

  /** An object is known only by its identity; two distinct objects never compare equal. */
  type ObjectId = nat

  /** A target is either a type (compared by its name, that is by value) or an object (by identity). */
  datatype Target = OfType(typeName: string) | OfObject(id: ObjectId)

  /** The placeholder method name carried by the not-matched join point of a target. */
  const ALL_METHODS: string := "all"

  datatype JoinPoint = JoinPoint(target: Target, methodName: string, isClassMethod: bool)
}
