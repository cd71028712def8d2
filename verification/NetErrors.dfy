/** The net error codes that the modelled code compares with. */
module NetErrors {
  const OK := 0
  const ERR_IO_PENDING := -1
  const ERR_FAILED := -2
}
