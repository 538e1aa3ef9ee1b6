/**
 * What the core raises. Every constructor but MissingStackName is a failure
 * the tests name; MissingStackName is this model's own error for an output
 * reference that names no stack.
 */
module Errors {

  datatype Error =
    | StackLookupFailed(stack: string)               // describe call fails: stack missing or not queryable
    | OutputNotFound(stack: string, output: string)  // the stack exists but has no such output key
    | MissingStackName(param: string)                // an output reference without a `stack` entry
    | NoStackDefined                                 // "No stack defined"
    | NoServiceName                                  // "No service name"
    | NoS3BucketDefined                              // "No s3_bucket defined"
    | NoTemplatesDefined                             // "No templates defined"
}
