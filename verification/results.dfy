/** The two ways a canvas operation of the export pipeline can end: with a value,
    or rejected with the message the promise is rejected with. */
module Results {

  datatype Result<+T> = Ok(value: T) | Err(message: string)
}
