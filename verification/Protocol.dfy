/** What the host and the planners know of one test file. */
module Protocol {
  datatype TestFile = TestFile(testPath: string, projectName: string)
}
