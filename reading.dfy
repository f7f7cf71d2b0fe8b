/** Where the code and what it evidently means to do part ways, the members
    concerned take the reading to follow: the code as written, or the
    behaviour it intends. */
module Reading {
  datatype Reading = AsWritten | Intended
}
